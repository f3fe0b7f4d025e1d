/**
 * The artists page (`Artist`): playing tracks, opening an album (which
 * starts its first song), the all-artists → profile → album view machine,
 * "PLAY ALL" and the popular-tracks row, all matched by artist name.
 */
module ArtistPage {
  import opened Wrappers
  import opened Json
  import Lists
  import opened Playback
  import Popular

  datatype View = AllArtists | ArtistProfile | AlbumSongs

  datatype Nav = Nav(view: View, artist: Option<Item>, album: Option<Item>)

  /** `handleBack`; the player is left alone. */
  function Back(n: Nav): (r: Nav)
    ensures n.view == AlbumSongs ==>
      r == n.(view := if n.artist.Some? then ArtistProfile else AllArtists, album := None)
    ensures n.view == ArtistProfile ==> r == n.(view := AllArtists, artist := None)
    ensures n.view == AllArtists ==> r == n
  {
    match n.view
    case AlbumSongs => n.(view := if n.artist.Some? then ArtistProfile else AllArtists, album := None)
    case ArtistProfile => n.(view := AllArtists, artist := None)
    case AllArtists => n
  }

  /** Two presses of back always reach the artist list. */
  lemma BackReachesAllArtists(n: Nav)
    ensures Back(Back(n)).view == AllArtists
  {
  }

  /** `song.album === album.title && song.artist === album.artist`. */
  predicate OnAlbum(album: Item, song: Item)
  {
    StrictEq(Get(song, "album"), Get(album, "title")) && StrictEq(Get(song, "artist"), Get(album, "artist"))
  }

  /** `song.artist === artist.name`. */
  predicate ByArtistName(artist: Item, song: Item)
  {
    StrictEq(Get(song, "artist"), Get(artist, "name"))
  }

  /**
   * What opening an album hands the player: its first song with all of its
   * songs as the queue, or `(null, [])` when it has none.
   */
  function AlbumPlay(songs: seq<Item>, album: Item): (r: PlayRequest)
    ensures r.queue == Lists.Filter(songs, s => OnAlbum(album, s))
    ensures r.song.Some? <==> r.queue != []
    ensures r.song.Some? ==> r.song.value == r.queue[0]
  {
    var albumSongs := Lists.Filter(songs, s => OnAlbum(album, s));
    if |albumSongs| > 0 then PlayRequest(Some(albumSongs[0]), albumSongs) else Nothing
  }

  /** The album's queue is exactly its songs, in catalogue order. */
  lemma AlbumQueueExact(songs: seq<Item>, album: Item)
    ensures var q := AlbumPlay(songs, album).queue;
      (forall s :: s in q <==> s in songs && OnAlbum(album, s)) && Lists.IsSubsequence(q, songs)
  {
    Lists.FilterIsSubsequence(songs, s => OnAlbum(album, s));
  }

  /** PLAY ALL: the artist's first song by name, with the whole catalogue as the queue. */
  function PlayAll(songs: seq<Item>, artist: Item): (r: Option<PlayRequest>)
    ensures r.None? <==> forall s :: s in songs ==> !ByArtistName(artist, s)
    ensures r.Some? ==> r.value.queue == songs && r.value.song.Some? && ByArtistName(artist, r.value.song.value)
    ensures r.Some? ==> r.value.song == Lists.Find(songs, s => ByArtistName(artist, s))
  {
    Lists.FindIsFilterHead(songs, s => ByArtistName(artist, s));
    var artistSongs := Lists.Filter(songs, s => ByArtistName(artist, s));
    if |artistSongs| > 0 then Some(PlayRequest(Some(artistSongs[0]), songs)) else None
  }

  function PopularTracks(songs: seq<Item>, artist: Item): seq<Item>
  {
    Popular.PopularTracks(songs, s => ByArtistName(artist, s))
  }

  /**
   * The six most viewed songs carrying the artist's name (all of them when
   * fewer), most viewed first; none of them left out has more views than one shown.
   */
  lemma PopularTracksOfArtist(songs: seq<Item>, artist: Item, y: Item)
    ensures var r := PopularTracks(songs, artist);
      var own := Lists.Filter(songs, s => ByArtistName(artist, s));
      && |r| == (if |own| < Popular.PopularCount then |own| else Popular.PopularCount)
      && Popular.SortedByViews(r)
      && multiset(r) <= multiset(own)
      && (forall x :: x in r ==> x in songs && ByArtistName(artist, x))
      && (y in songs && ByArtistName(artist, y) && y !in r ==> forall x :: x in r ==> Popular.Views(y) <= Popular.Views(x))
  {
    Popular.PopularTracksChosen(songs, s => ByArtistName(artist, s));
    Popular.PopularTracksMaximal(songs, s => ByArtistName(artist, s), y);
  }

  /** The loading screen shows while songs, artists or albums is empty. */
  predicate ShowsLoading(songs: seq<Item>, artists: seq<Item>, albums: seq<Item>)
  {
    |songs| == 0 || |artists| == 0 || |albums| == 0
  }

  class ArtistPageState {
    var currentView: View
    var selectedArtist: Option<Item>
    var selectedAlbum: Option<Item>

    constructor()
      ensures Current() == Nav(AllArtists, None, None)
    {
      currentView := AllArtists;
      selectedArtist, selectedAlbum := None, None;
    }

    function Current(): Nav
      reads this
    {
      Nav(currentView, selectedArtist, selectedAlbum)
    }

    method HandlePlayTrack(songs: seq<Item>, track: Item) returns (play: PlayRequest)
      ensures play.song == Some(track) && play.queue == songs
    {
      play := PlayRequest(Some(track), songs);
    }

    method HandleSelectArtist(artist: Item)
      modifies this
      ensures Current() == old(Current()).(view := ArtistProfile, artist := Some(artist))
    {
      selectedArtist := Some(artist);
      currentView := ArtistProfile;
    }

    /** `handleSelectAlbum`: opens the album and starts its first song. */
    method HandleSelectAlbum(songs: seq<Item>, album: Item) returns (play: PlayRequest)
      modifies this
      ensures Current() == old(Current()).(view := AlbumSongs, album := Some(album))
      ensures play == AlbumPlay(songs, album)
    {
      selectedAlbum := Some(album);
      currentView := AlbumSongs;
      var albumSongs := Lists.Filter(songs, s => OnAlbum(album, s));
      if |albumSongs| > 0 {
        play := PlayRequest(Some(albumSongs[0]), albumSongs);
      } else {
        play := Nothing;
      }
    }

    method HandleBack()
      modifies this
      ensures Current() == Back(old(Current()))
    {
      if currentView == AlbumSongs {
        if selectedArtist.Some? {
          currentView := ArtistProfile;
        } else {
          currentView := AllArtists;
        }
        selectedAlbum := None;
      } else if currentView == ArtistProfile {
        currentView := AllArtists;
        selectedArtist := None;
      }
    }

    /** The PLAY ALL button on the selected artist's profile. */
    method HandlePlayAll(songs: seq<Item>) returns (play: Option<PlayRequest>)
      requires selectedArtist.Some?
      ensures play == PlayAll(songs, selectedArtist.value)
    {
      var artist := selectedArtist.value;
      var artistSongs := Lists.Filter(songs, s => ByArtistName(artist, s));
      if |artistSongs| > 0 {
        var request := HandlePlayTrack(songs, artistSongs[0]);
        play := Some(request);
      } else {
        play := None;
      }
    }
  }
}
