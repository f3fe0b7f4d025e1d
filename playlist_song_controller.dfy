/**
 * `addSongToPlaylist` and `removeSongFromPlaylist`
 * (Back-end/controllers/playlistSongController.js) on the `playlist_songs`
 * join table, whose composite primary key (Back-end/models/PlaylistSong.js)
 * makes it a set of (playlist id, song id) pairs. Both columns are foreign
 * keys to the playlists and songs tables, which these handlers only read.
 */
module PlaylistSongController {
  import opened Wrappers
  import opened Text

  /** A row: (playlist_id, song_id). */
  type Entry = (string, string)

  const MissingFieldsMessage := "Both playlist_id and song_id are required"
  const DuplicateMessage := "Song already exists in this playlist"
  const AddFailedMessage := "Failed to add song to playlist"
  const MissingParamsMessage := "Both playlist_id and song_id are required for deletion"
  const NotFoundMessage := "Song not found in this playlist"

  datatype AddResponse = AddMissingFields | Duplicate | AddFailed | Added(entry: Entry)

  datatype RemoveResponse = RemoveMissingParams | Removed | NotInPlaylist

  function AddStatus(r: AddResponse): nat
  {
    match r
    case AddMissingFields => 400
    case Duplicate => 409
    case AddFailed => 400
    case Added(_) => 201
  }

  function RemoveStatus(r: RemoveResponse): nat
  {
    match r
    case RemoveMissingParams => 400
    case Removed => 204
    case NotInPlaylist => 404
  }

  /** Every row refers to an existing playlist and an existing song. */
  ghost predicate References(entries: set<Entry>, playlists: set<string>, songs: set<string>)
  {
    forall e | e in entries :: e.0 in playlists && e.1 in songs
  }

  /** The table after an add request and the answer. */
  function Add(entries: set<Entry>, playlists: set<string>, songs: set<string>,
               playlistId: Option<string>, songId: Option<string>): (set<Entry>, AddResponse)
  {
    if !Truthy(playlistId) || !Truthy(songId) then (entries, AddMissingFields)
    else
      var e := (playlistId.value, songId.value);
      if e in entries then (entries, Duplicate)
      else if e.0 !in playlists || e.1 !in songs then (entries, AddFailed)
      else (entries + {e}, Added(e))
  }

  /** The table after a delete request and the answer. */
  function Remove(entries: set<Entry>, playlistId: string, songId: string): (set<Entry>, RemoveResponse)
  {
    if playlistId == "" || songId == "" then (entries, RemoveMissingParams)
    else
      var e := (playlistId, songId);
      if e in entries then (entries - {e}, Removed) else (entries, NotInPlaylist)
  }

  class PlaylistSongTable {
    var entries: set<Entry>
    const playlists: set<string>
    const songs: set<string>

    ghost predicate Valid()
      reads this
    {
      References(entries, playlists, songs)
    }

    constructor (playlists: set<string>, songs: set<string>)
      ensures Valid() && entries == {} && this.playlists == playlists && this.songs == songs
    {
      entries := {};
      this.playlists, this.songs := playlists, songs;
    }

    /** `PlaylistSong.findOne({ where: { playlist_id, song_id } })`. */
    method FindOne(e: Entry) returns (found: bool)
      ensures found <==> e in entries
    {
      found := e in entries;
    }

    /** `PlaylistSong.create(...)`: fails on a dangling foreign key. */
    method Create(e: Entry) returns (ok: bool)
      requires Valid()
      modifies this`entries
      ensures Valid()
      ensures ok <==> e.0 in playlists && e.1 in songs
      ensures entries == if ok then old(entries) + {e} else old(entries)
    {
      ok := e.0 in playlists && e.1 in songs;
      if ok {
        entries := entries + {e};
      }
    }

    /** `PlaylistSong.destroy({ where: ... })`: the number of rows deleted. */
    method Destroy(e: Entry) returns (deleted: nat)
      requires Valid()
      modifies this`entries
      ensures Valid()
      ensures deleted == if e in old(entries) then 1 else 0
      ensures entries == old(entries) - {e}
    {
      if e in entries {
        entries, deleted := entries - {e}, 1;
      } else {
        deleted := 0;
        assert entries - {e} == entries;
      }
    }

    method AddSongToPlaylist(playlistId: Option<string>, songId: Option<string>) returns (resp: AddResponse)
      requires Valid()
      modifies this`entries
      ensures Valid()
      ensures (entries, resp) == Add(old(entries), playlists, songs, playlistId, songId)
    {
      if !Truthy(playlistId) || !Truthy(songId) {
        return AddMissingFields;
      }
      var e := (playlistId.value, songId.value);
      var existing := FindOne(e);
      if existing {
        return Duplicate;
      }
      var ok := Create(e);
      resp := if ok then Added(e) else AddFailed;
    }

    method RemoveSongFromPlaylist(playlistId: string, songId: string) returns (resp: RemoveResponse)
      requires Valid()
      modifies this`entries
      ensures Valid()
      ensures (entries, resp) == Remove(old(entries), playlistId, songId)
    {
      if playlistId == "" || songId == "" {
        return RemoveMissingParams;
      }
      var deleted := Destroy((playlistId, songId));
      if deleted == 0 {
        assert entries == old(entries) - {(playlistId, songId)} == old(entries);
      }
      resp := if deleted > 0 then Removed else NotInPlaylist;
    }
  }

  /**
   * An add is refused, with the table unchanged, when an id is missing (400),
   * the pair is present (409) or an id refers to nothing (400); otherwise
   * exactly that pair is inserted (201).
   */
  lemma AddOutcomes(entries: set<Entry>, playlists: set<string>, songs: set<string>,
                    playlistId: Option<string>, songId: Option<string>)
    ensures var (entries1, resp) := Add(entries, playlists, songs, playlistId, songId);
      && (resp == AddMissingFields <==> !Truthy(playlistId) || !Truthy(songId))
      && (resp == Duplicate <==> Truthy(playlistId) && Truthy(songId) && (playlistId.value, songId.value) in entries)
      && (resp.Added? <==>
            Truthy(playlistId) && Truthy(songId) && (playlistId.value, songId.value) !in entries
            && playlistId.value in playlists && songId.value in songs)
      && (resp.Added? ==> resp.entry == (playlistId.value, songId.value) && entries1 == entries + {resp.entry}
                          && |entries1| == |entries| + 1)
      && (!resp.Added? ==> entries1 == entries)
  {
  }

  /** Adding keeps every row's references valid. */
  lemma AddKeepsReferences(entries: set<Entry>, playlists: set<string>, songs: set<string>,
                           playlistId: Option<string>, songId: Option<string>)
    requires References(entries, playlists, songs)
    ensures References(Add(entries, playlists, songs, playlistId, songId).0, playlists, songs)
  {
  }

  /** A delete removes exactly the named pair: 204 when it was there, 404 when not. */
  lemma RemoveOutcomes(entries: set<Entry>, playlistId: string, songId: string)
    requires playlistId != "" && songId != ""
    ensures var (entries1, resp) := Remove(entries, playlistId, songId);
      && entries1 == entries - {(playlistId, songId)}
      && (resp == Removed <==> (playlistId, songId) in entries)
      && (resp == NotInPlaylist <==> (playlistId, songId) !in entries)
  {
  }

  /** Adding a new pair and then removing it restores the table. */
  lemma AddThenRemove(entries: set<Entry>, playlists: set<string>, songs: set<string>, playlistId: string, songId: string)
    requires Add(entries, playlists, songs, Some(playlistId), Some(songId)).1.Added?
    ensures var entries1 := Add(entries, playlists, songs, Some(playlistId), Some(songId)).0;
      Remove(entries1, playlistId, songId) == (entries, Removed)
  {
    var entries1 := entries + {(playlistId, songId)};
    assert entries1 - {(playlistId, songId)} == entries;
  }

  /** Adding the same pair again is answered 409 and leaves the table as the first add left it. */
  lemma AddTwice(entries: set<Entry>, playlists: set<string>, songs: set<string>, playlistId: Option<string>, songId: Option<string>)
    requires Add(entries, playlists, songs, playlistId, songId).1.Added?
    ensures var entries1 := Add(entries, playlists, songs, playlistId, songId).0;
      Add(entries1, playlists, songs, playlistId, songId) == (entries1, Duplicate)
  {
  }
}
