/**
 * The albums page (`Albums`): which song plays and with which queue when an
 * album, an album track or a playlist track is clicked, and the page's
 * three views.
 */
module AlbumPage {
  import opened Wrappers
  import opened Json
  import Lists
  import opened Playback

  datatype View = AlbumsView | SongsView | PlaylistSongsView

  /** `album.Songs` is an array of objects. */
  predicate HasSongList(album: Item)
  {
    var v := Get(album, "Songs");
    v.Some? && v.value.Arr? && forall i :: 0 <= i < |v.value.items| ==> v.value.items[i].Obj?
  }

  /** `album.Songs` is absent (falsy) or an array of objects. */
  predicate SongListOrAbsent(album: Item)
  {
    !Truthy(Get(album, "Songs")) || HasSongList(album)
  }

  /** The entries of `album.Songs`, none when it is absent. */
  function Entries(album: Item): seq<Json>
  {
    var v := Get(album, "Songs");
    if v.Some? && v.value.Arr? then v.value.items else []
  }

  /** `songs.find(globalSong => globalSong.songId === entry.song_id)`. */
  function Lookup(songs: seq<Item>, entry: Json): (r: Option<Item>)
    ensures r.Some? ==> r.value in songs && StrictEq(Get(r.value, "songId"), Field(Some(entry), "song_id"))
  {
    Lists.Find(songs, s => StrictEq(Get(s, "songId"), Field(Some(entry), "song_id")))
  }

  /**
   * `entries.map(lookup).filter(Boolean)`: each entry's song from the
   * catalogue, entries that resolve to nothing dropped.
   */
  function Resolve(songs: seq<Item>, entries: seq<Json>): (r: seq<Item>)
    ensures |r| <= |entries|
    ensures forall x :: x in r ==> x in songs
  {
    if entries == [] then []
    else
      match Lookup(songs, entries[0])
      case Some(s) => [s] + Resolve(songs, entries[1..])
      case None => Resolve(songs, entries[1..])
  }

  /** Resolution works entry by entry: the queue keeps the album's order. */
  lemma {:induction false} ResolveAppend(songs: seq<Item>, a: seq<Json>, b: seq<Json>)
    ensures Resolve(songs, a + b) == Resolve(songs, a) + Resolve(songs, b)
    decreases |a|
  {
    if a != [] {
      assert (a + b)[1..] == a[1..] + b;
      ResolveAppend(songs, a[1..], b);
    } else {
      assert a + b == b;
    }
  }

  /** When every entry resolves, the queue has one song per entry, in order. */
  lemma {:induction false} ResolveAll(songs: seq<Item>, entries: seq<Json>)
    requires forall k :: 0 <= k < |entries| ==> Lookup(songs, entries[k]).Some?
    ensures |Resolve(songs, entries)| == |entries|
    ensures forall k :: 0 <= k < |entries| ==> Resolve(songs, entries)[k] == Lookup(songs, entries[k]).value
    decreases |entries|
  {
    if entries != [] {
      ResolveAll(songs, entries[1..]);
      var r := Resolve(songs, entries);
      forall k | 0 <= k < |entries|
        ensures r[k] == Lookup(songs, entries[k]).value
      {
        if k > 0 {
          assert entries[1..][k - 1] == entries[k];
        }
      }
    }
  }

  /**
   * `handleAlbumClick`'s call to the player: the album's first song with the
   * album's resolved songs as queue, or `(null, [])` when the first entry
   * does not resolve.
   */
  function AlbumClick(songs: seq<Item>, album: Item): (r: PlayRequest)
    requires SongListOrAbsent(album)
    ensures r.song.Some? <==> |Entries(album)| > 0 && Lookup(songs, Entries(album)[0]).Some?
    ensures r.song.Some? ==> r.queue != [] && r.queue[0] == r.song.value && r.queue == Resolve(songs, Entries(album))
    ensures r.song.None? ==> r == Nothing
  {
    var entries := Entries(album);
    var first := if |entries| > 0 then Lookup(songs, entries[0]) else None;
    if first.Some? then PlayRequest(first, Resolve(songs, entries)) else Nothing
  }

  class AlbumPageState {
    var view: View
    var selectedAlbum: Option<Item>
    var selectedPlaylist: Option<Item>

    constructor()
      ensures view == AlbumsView && selectedAlbum.None? && selectedPlaylist.None?
    {
      view := AlbumsView;
      selectedAlbum, selectedPlaylist := None, None;
    }

    /** `handleAlbumClick`: always opens the album, and hands the player its songs. */
    method HandleAlbumClick(songs: seq<Item>, album: Item) returns (play: PlayRequest)
      requires SongListOrAbsent(album)
      modifies this
      ensures selectedAlbum == Some(album) && view == SongsView
      ensures selectedPlaylist == old(selectedPlaylist)
      ensures play == AlbumClick(songs, album)
    {
      selectedAlbum := Some(album);
      view := SongsView;
      var entries := Entries(album);
      var firstSong := if |entries| > 0 then Lookup(songs, entries[0]) else None;
      if firstSong.Some? {
        var playableSongs := Resolve(songs, entries);
        play := PlayRequest(firstSong, playableSongs);
      } else {
        play := Nothing;
      }
    }

    /** `handleSongClick`: the selected album's resolved songs are the queue, none without an album. */
    method HandleSongClick(songs: seq<Item>, song: Item) returns (play: PlayRequest)
      requires selectedAlbum.Some? ==> HasSongList(selectedAlbum.value)
      ensures play.song == Some(song)
      ensures selectedAlbum.None? ==> play.queue == []
      ensures selectedAlbum.Some? ==> play.queue == Resolve(songs, Entries(selectedAlbum.value))
    {
      var playableSongs := if selectedAlbum.Some? then Resolve(songs, Entries(selectedAlbum.value)) else [];
      play := PlayRequest(Some(song), playableSongs);
    }

    method HandleBackToAlbums()
      modifies this
      ensures view == AlbumsView && selectedAlbum.None? && selectedPlaylist.None?
    {
      view := AlbumsView;
      selectedAlbum := None;
      selectedPlaylist := None;
    }

    method HandleSelectPlaylist(playlist: Item)
      modifies this
      ensures selectedPlaylist == Some(playlist) && view == PlaylistSongsView
      ensures selectedAlbum == old(selectedAlbum)
    {
      selectedPlaylist := Some(playlist);
      view := PlaylistSongsView;
    }

    method HandlePlayTrackFromPlaylist(track: Item) returns (play: PlayRequest)
      requires ListOfObjects(SongsField(selectedPlaylist))
      ensures play == PlayFromPlaylist(track, selectedPlaylist)
    {
      play := PlayRequest(Some(track), ObjectsOf(SongsField(selectedPlaylist)));
    }
  }
}
