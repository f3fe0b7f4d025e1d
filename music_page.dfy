/**
 * The music home page (`Musicpage`): what each play button hands the
 * player, the home → artist → album view machine behind the back button,
 * "PLAY ALL" and the popular-tracks row.
 */
module MusicPage {
  import opened Wrappers
  import opened Json
  import Lists
  import opened Playback
  import Popular

  datatype View = Home | ArtistProfile | AlbumSongs | PlaylistSongs

  /** The page's navigation state. */
  datatype Nav = Nav(view: View, artist: Option<Item>, album: Option<Item>, playlist: Option<Item>)

  /** `handleBack`. */
  function Back(n: Nav): (r: Nav)
    ensures n.view == AlbumSongs ==>
      r == n.(view := if n.artist.Some? then ArtistProfile else Home, album := None)
    ensures n.view == PlaylistSongs ==> r == n.(view := Home, playlist := None)
    ensures n.view == ArtistProfile ==> r == n.(view := Home, artist := None)
    ensures n.view == Home ==> r == n
  {
    match n.view
    case AlbumSongs => n.(view := if n.artist.Some? then ArtistProfile else Home, album := None)
    case PlaylistSongs => n.(view := Home, playlist := None)
    case ArtistProfile => n.(view := Home, artist := None)
    case Home => n
  }

  /** Two presses of back always lead home, and back at home changes nothing. */
  lemma BackReachesHome(n: Nav)
    ensures Back(Back(n)).view == Home
    ensures Back(n).view == Home ==> Back(Back(n)) == Back(n)
  {
  }

  /** `song.artistId === artist.artistId`. */
  predicate ByArtistId(artist: Item, song: Item)
  {
    StrictEq(Get(song, "artistId"), Get(artist, "artistId"))
  }

  /** PLAY ALL: the first of the artist's songs, with the whole catalogue as the queue. */
  function PlayAll(songs: seq<Item>, artist: Item): (r: Option<PlayRequest>)
    ensures r.None? <==> forall s :: s in songs ==> !ByArtistId(artist, s)
  {
    var artistSongs := Lists.Filter(songs, s => ByArtistId(artist, s));
    if |artistSongs| > 0 then Some(PlayRequest(Some(artistSongs[0]), songs)) else None
  }

  /** PLAY ALL plays the artist's earliest song in the catalogue. */
  lemma PlayAllFirstOfArtist(songs: seq<Item>, artist: Item)
    ensures PlayAll(songs, artist).Some? ==>
      var i := Lists.FindIndex(songs, s => ByArtistId(artist, s));
      i.Some? && PlayAll(songs, artist).value == PlayRequest(Some(songs[i.value]), songs)
  {
    Lists.FindIsFilterHead(songs, s => ByArtistId(artist, s));
  }

  /** The artist-profile "Popular Tracks" row. */
  function PopularTracks(songs: seq<Item>, artist: Item): seq<Item>
  {
    Popular.PopularTracks(songs, s => ByArtistId(artist, s))
  }

  /**
   * The artist's six most viewed songs (all of them when fewer), most viewed
   * first; no song of the artist left out has more views than one shown.
   */
  lemma PopularTracksOfArtist(songs: seq<Item>, artist: Item, y: Item)
    ensures var r := PopularTracks(songs, artist);
      var own := Lists.Filter(songs, s => ByArtistId(artist, s));
      && |r| == (if |own| < Popular.PopularCount then |own| else Popular.PopularCount)
      && Popular.SortedByViews(r)
      && multiset(r) <= multiset(own)
      && (forall x :: x in r ==> x in songs && ByArtistId(artist, x))
      && (y in songs && ByArtistId(artist, y) && y !in r ==> forall x :: x in r ==> Popular.Views(y) <= Popular.Views(x))
  {
    Popular.PopularTracksChosen(songs, s => ByArtistId(artist, s));
    Popular.PopularTracksMaximal(songs, s => ByArtistId(artist, s), y);
  }

  /** The placeholder shows while any of the four collections is empty. */
  predicate ShowsLoading(songs: seq<Item>, artists: seq<Item>, albums: seq<Item>, playlists: seq<Item>)
  {
    |songs| == 0 || |artists| == 0 || |albums| == 0 || |playlists| == 0
  }

  class MusicPageState {
    var currentView: View
    var selectedArtist: Option<Item>
    var selectedAlbum: Option<Item>
    var selectedPlaylist: Option<Item>

    constructor()
      ensures Current() == Nav(Home, None, None, None)
    {
      currentView := Home;
      selectedArtist, selectedAlbum, selectedPlaylist := None, None, None;
    }

    function Current(): Nav
      reads this
    {
      Nav(currentView, selectedArtist, selectedAlbum, selectedPlaylist)
    }

    /** `handlePlayTrack`: the whole catalogue is the queue. */
    method HandlePlayTrack(songs: seq<Item>, track: Item) returns (play: PlayRequest)
      ensures play.song == Some(track) && play.queue == songs
    {
      play := PlayRequest(Some(track), songs);
    }

    method HandleSelectArtist(artist: Item)
      modifies this
      ensures Current() == old(Current()).(view := ArtistProfile, artist := Some(artist))
    {
      selectedArtist := Some(artist);
      currentView := ArtistProfile;
    }

    method HandleSelectAlbum(album: Item)
      modifies this
      ensures Current() == old(Current()).(view := AlbumSongs, album := Some(album))
    {
      selectedAlbum := Some(album);
      currentView := AlbumSongs;
    }

    method HandleSelectPlaylist(playlist: Item)
      modifies this
      ensures Current() == old(Current()).(view := PlaylistSongs, playlist := Some(playlist))
    {
      selectedPlaylist := Some(playlist);
      currentView := PlaylistSongs;
    }

    method HandlePlayTrackFromPlaylist(track: Item) returns (play: PlayRequest)
      requires ListOfObjects(SongsField(selectedPlaylist))
      ensures play == PlayFromPlaylist(track, selectedPlaylist)
    {
      play := PlayRequest(Some(track), ObjectsOf(SongsField(selectedPlaylist)));
    }

    method HandleBack()
      modifies this
      ensures Current() == Back(old(Current()))
    {
      if currentView == AlbumSongs {
        if selectedArtist.Some? {
          currentView := ArtistProfile;
        } else {
          currentView := Home;
        }
        selectedAlbum := None;
      } else if currentView == PlaylistSongs {
        currentView := Home;
        selectedPlaylist := None;
      } else if currentView == ArtistProfile {
        currentView := Home;
        selectedArtist := None;
      }
    }

    /** The PLAY ALL button, shown on the profile of the selected artist. */
    method HandlePlayAll(songs: seq<Item>) returns (play: Option<PlayRequest>)
      requires selectedArtist.Some?
      ensures play == PlayAll(songs, selectedArtist.value)
    {
      var artist := selectedArtist.value;
      var artistSongs := Lists.Filter(songs, s => ByArtistId(artist, s));
      if |artistSongs| > 0 {
        var request := HandlePlayTrack(songs, artistSongs[0]);
        play := Some(request);
      } else {
        play := None;
      }
    }
  }
}
