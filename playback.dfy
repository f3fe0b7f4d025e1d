/**
 * What a page hands to the player slot: `setCurrentPlayingSong(song, queue)`.
 * `song` is `None` for `null`.
 */
module Playback {
  import opened Wrappers
  import opened Json

  datatype PlayRequest = PlayRequest(song: Option<Item>, queue: seq<Item>)

  /** `setCurrentPlayingSong(null, [])`. */
  const Nothing := PlayRequest(None, [])

  /** A value that `|| []` turns into a list of objects: falsy, or an array of objects. */
  predicate ListOfObjects(v: Option<Json>)
  {
    !Truthy(v) || (v.value.Arr? && forall i :: 0 <= i < |v.value.items| ==> v.value.items[i].Obj?)
  }

  /** `v || []` read as a list of objects. */
  function ObjectsOf(v: Option<Json>): (r: seq<Item>)
    requires ListOfObjects(v)
    ensures !Truthy(v) ==> r == []
    ensures Truthy(v) ==> |r| == |v.value.items| && forall i :: 0 <= i < |r| ==> Obj(r[i]) == v.value.items[i]
  {
    if !Truthy(v) then [] else seq(|v.value.items|, i requires 0 <= i < |v.value.items| => v.value.items[i].fields)
  }

  /** `playlist?.Songs`. */
  function SongsField(playlist: Option<Item>): Option<Json>
  {
    if playlist.Some? then Get(playlist.value, "Songs") else None
  }

  /**
   * `handlePlayTrackFromPlaylist` on the album and music pages: the selected
   * playlist's `Songs`, or nothing, is the queue.
   */
  function PlayFromPlaylist(track: Item, selectedPlaylist: Option<Item>): (r: PlayRequest)
    requires ListOfObjects(SongsField(selectedPlaylist))
    ensures r.song == Some(track)
    ensures selectedPlaylist.None? ==> r.queue == []
    ensures r.queue == ObjectsOf(SongsField(selectedPlaylist))
  {
    PlayRequest(Some(track), ObjectsOf(SongsField(selectedPlaylist)))
  }
}
