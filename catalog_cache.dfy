/**
 * The catalogue the data provider keeps for every page
 * (Front-end/src/components/datacontext.jsx): the collections fetched from
 * the API, renamed and normalised, the view-count update and the favourite
 * toggle. Each fetch is a parameter: `None` when the request fails, answers
 * a non-OK status or is not JSON; otherwise the parsed body.
 */
module CatalogCache {
  import opened Wrappers
  import Text
  import opened Json
  import Lists

  /** A parsed response body: an array of objects, or any other value. */
  datatype Payload = NotAnArray | Rows(rows: seq<Item>)

  /** A foreign-key renaming `{ from, to }`. */
  datatype KeyMap = KeyMap(from: string, to: string)

  const UnknownArtist := "Unknown Artist"
  const UnknownAlbum := "Unknown Album"

  // -------------------------------------------------------- mapDataKeys

  /** One renaming: copy `from` to `to` when `from` is defined. */
  function CopyKey(m: Item, fk: KeyMap): Item
  {
    if fk.from in m then m[fk.to := m[fk.from]] else m
  }

  /** The renamings applied in order to the copy. */
  function CopyKeys(m: Item, fks: seq<KeyMap>): Item
    decreases |fks|
  {
    if fks == [] then m else CopyKeys(CopyKey(m, fks[0]), fks[1..])
  }

  /** The copy of one item: `id` from `idKey` when that is given and defined, then the renamings. */
  function MapItem(item: Item, idKey: Option<string>, fks: seq<KeyMap>): Item
  {
    var withId := if Text.Truthy(idKey) && idKey.value in item then item["id" := item[idKey.value]] else item;
    CopyKeys(withId, fks)
  }

  /** `mapDataKeys(data, idKey, foreignKeys)` as a value. */
  function Mapped(data: Payload, idKey: Option<string>, fks: seq<KeyMap>): seq<Item>
  {
    if data.NotAnArray? then []
    else seq(|data.rows|, i requires 0 <= i < |data.rows| => MapItem(data.rows[i], idKey, fks))
  }

  /** `mapDataKeys`: a fresh copy of each item, its fields assigned one by one. */
  method MapDataKeys(data: Payload, idKey: Option<string>, fks: seq<KeyMap>) returns (r: seq<Item>)
    ensures data.NotAnArray? ==> r == []
    ensures data.Rows? ==> |r| == |data.rows|
    ensures data.Rows? ==> forall i :: 0 <= i < |r| ==> r[i] == MapItem(data.rows[i], idKey, fks)
  {
    if data.NotAnArray? {
      return [];
    }
    r := [];
    var i := 0;
    while i < |data.rows|
      invariant 0 <= i <= |data.rows| && |r| == i
      invariant forall k :: 0 <= k < i ==> r[k] == MapItem(data.rows[k], idKey, fks)
    {
      var newItem := data.rows[i];
      if Text.Truthy(idKey) && idKey.value in newItem {
        newItem := newItem["id" := newItem[idKey.value]];
      }
      var j := 0;
      while j < |fks|
        invariant 0 <= j <= |fks|
        invariant CopyKeys(newItem, fks[j..]) == MapItem(data.rows[i], idKey, fks)
      {
        assert fks[j..][1..] == fks[j + 1..];
        var fk := fks[j];
        if fk.from in newItem {
          newItem := newItem[fk.to := newItem[fk.from]];
        }
        j := j + 1;
      }
      r := r + [newItem];
      i := i + 1;
    }
  }

  function Targets(fks: seq<KeyMap>): set<string>
  {
    set j | 0 <= j < |fks| :: fks[j].to
  }

  /** Renamings that do not interfere: distinct targets, no target read as a source, `id` untouched. */
  predicate Independent(fks: seq<KeyMap>)
  {
    && (forall j, k :: 0 <= j < k < |fks| ==> fks[j].to != fks[k].to)
    && (forall j, k :: 0 <= j < |fks| && 0 <= k < |fks| ==> fks[j].to != fks[k].from)
    && (forall j :: 0 <= j < |fks| ==> fks[j].to != "id" && fks[j].from != "id")
  }

  lemma {:induction false} CopyKeysSpec(m: Item, fks: seq<KeyMap>)
    requires Independent(fks)
    ensures forall k :: k !in Targets(fks) ==> Get(CopyKeys(m, fks), k) == Get(m, k)
    ensures forall j :: 0 <= j < |fks| && fks[j].from in m ==> Get(CopyKeys(m, fks), fks[j].to) == Get(m, fks[j].from)
    ensures forall j :: 0 <= j < |fks| && fks[j].from !in m ==> Get(CopyKeys(m, fks), fks[j].to) == Get(m, fks[j].to)
    decreases |fks|
  {
    if fks != [] {
      var m1 := CopyKey(m, fks[0]);
      var rest := fks[1..];
      assert Independent(rest);
      CopyKeysSpec(m1, rest);
      assert Targets(fks) == {fks[0].to} + Targets(rest);
      assert fks[0].to !in Targets(rest);
      forall j | 1 <= j < |fks|
        ensures fks[j].from in m1 <==> fks[j].from in m
        ensures fks[j].from in m ==> m1[fks[j].from] == m[fks[j].from]
        ensures Get(m1, fks[j].to) == Get(m, fks[j].to)
      {
        assert fks[j] == rest[j - 1];
      }
    }
  }

  /**
   * Each mapped item keeps every original field, the snake_case keys
   * included; `id` is the `idKey` value when that is given and defined, and
   * otherwise whatever `id` the item had; each renamed field holds its source
   * value when that is defined and is otherwise left as it was.
   */
  lemma MapItemSpec(item: Item, idKey: Option<string>, fks: seq<KeyMap>)
    requires Independent(fks)
    ensures var r := MapItem(item, idKey, fks);
      && (forall k :: k != "id" && k !in Targets(fks) ==> Get(r, k) == Get(item, k))
      && (Text.Truthy(idKey) && idKey.value in item ==> Get(r, "id") == Get(item, idKey.value))
      && (!(Text.Truthy(idKey) && idKey.value in item) ==> Get(r, "id") == Get(item, "id"))
      && (forall j :: 0 <= j < |fks| && fks[j].from in item ==> Get(r, fks[j].to) == Get(item, fks[j].from))
      && (forall j :: 0 <= j < |fks| && fks[j].from !in item ==> Get(r, fks[j].to) == Get(item, fks[j].to))
  {
    var withId := if Text.Truthy(idKey) && idKey.value in item then item["id" := item[idKey.value]] else item;
    CopyKeysSpec(withId, fks);
    assert "id" !in Targets(fks);
    forall j | 0 <= j < |fks|
      ensures fks[j].from in withId <==> fks[j].from in item
      ensures fks[j].from in item ==> withId[fks[j].from] == item[fks[j].from]
      ensures Get(withId, fks[j].to) == Get(item, fks[j].to)
    {
    }
  }

  // -------------------------------------------------------- record mappers

  /** `x ? x.name : fallback`. */
  function NameOr(nested: Option<Json>, fallback: string): (r: Option<Json>)
    ensures Truthy(nested) ==> r == Field(nested, "name")
    ensures !Truthy(nested) ==> r == Some(Str(fallback))
  {
    if Truthy(nested) then Field(nested, "name") else Some(Str(fallback))
  }

  /** The keys the song mapper assigns. */
  const SongKeys: set<string> := {"id", "artistId", "albumId", "audio", "albumArt", "songArt", "artist", "album"}

  /** The identifier and audio keys of a stored song: the first half of the song mapper. */
  function SongIdsOf(raw: Item): (r: Item)
    ensures forall k :: k !in {"id", "artistId", "albumId", "audio"} ==> Get(r, k) == Get(raw, k)
    ensures Get(r, "id") == Get(raw, "song_id")
    ensures Get(r, "artistId") == Get(raw, "artist_id") && Get(r, "albumId") == Get(raw, "album_id")
    ensures Get(r, "audio") == Get(raw, "audioUrl")
  {
    var s := Put(raw, "id", Get(raw, "song_id"));
    var s := Put(s, "artistId", Get(raw, "artist_id"));
    var s := Put(s, "albumId", Get(raw, "album_id"));
    Put(s, "audio", Get(raw, "audioUrl"))
  }

  /** The artwork and display-name keys of a stored song: the second half of the song mapper. */
  function SongLabelsOf(s: Item, raw: Item): (r: Item)
    ensures forall k :: k !in {"albumArt", "songArt", "artist", "album"} ==> Get(r, k) == Get(s, k)
    ensures Get(r, "albumArt") == Get(raw, "coverImage") && Get(r, "songArt") == Get(raw, "coverImage")
    ensures Get(r, "artist") == NameOr(Get(raw, "Artist"), UnknownArtist)
    ensures Get(r, "album") == NameOr(Get(raw, "Album"), UnknownAlbum)
  {
    var s := Put(s, "albumArt", Get(raw, "coverImage"));
    var s := Put(s, "songArt", Get(raw, "coverImage"));
    var s := Put(s, "artist", NameOr(Get(raw, "Artist"), UnknownArtist));
    Put(s, "album", NameOr(Get(raw, "Album"), UnknownAlbum))
  }

  /** One song as the provider stores it: the API fields plus the front end's names for them. */
  function SongOf(raw: Item): (r: Item)
    ensures forall k :: k !in SongKeys ==> Get(r, k) == Get(raw, k)
  {
    SongLabelsOf(SongIdsOf(raw), raw)
  }

  const AlbumKeys: set<string> := {"id", "artistId", "albumArt", "artist"}

  /** One album as the provider stores it (all, new and trending albums alike). */
  function AlbumOf(raw: Item): (r: Item)
    ensures forall k :: k !in AlbumKeys ==> Get(r, k) == Get(raw, k)
    ensures Get(r, "id") == Get(raw, "album_id") && Get(r, "artistId") == Get(raw, "artist_id")
    ensures Get(r, "albumArt") == Get(raw, "cover_image")
    ensures Get(r, "artist") == NameOr(Get(raw, "Artist"), UnknownArtist)
  {
    var a := Put(raw, "id", Get(raw, "album_id"));
    var a := Put(a, "artistId", Get(raw, "artist_id"));
    var a := Put(a, "albumArt", Get(raw, "cover_image"));
    Put(a, "artist", NameOr(Get(raw, "Artist"), UnknownArtist))
  }

  /** A stored song or album always has a defined display name for its artist. */
  lemma ArtistNameDefinedWhenNoArtist(raw: Item)
    requires !Truthy(Get(raw, "Artist"))
    ensures Get(SongOf(raw), "artist") == Some(Str(UnknownArtist))
    ensures Get(AlbumOf(raw), "artist") == Some(Str(UnknownArtist))
  {
  }

  // ------------------------------------------------------ playlist songs

  function StrValues(ss: seq<string>): (r: seq<Json>)
    ensures |r| == |ss| && forall i :: 0 <= i < |ss| ==> r[i] == Str(ss[i])
  {
    if ss == [] then [] else [Str(ss[0])] + StrValues(ss[1..])
  }

  /**
   * A playlist's `songs`: a comma-separated string becomes the array of its
   * non-empty pieces, any other truthy value stays, and a missing one is [].
   */
  function NormalizeSongs(v: Option<Json>): (r: Json)
  {
    if v.Some? && v.value.Str? then Arr(StrValues(Text.NonEmpty(Text.Split(v.value.s, ','))))
    else if Truthy(v) then v.value
    else Arr([])
  }

  function PlaylistOf(p: Item): (r: Item)
    ensures forall k :: k != "songs" ==> Get(r, k) == Get(p, k)
    ensures Get(r, "songs") == Some(NormalizeSongs(Get(p, "songs")))
  {
    Put(p, "songs", Some(NormalizeSongs(Get(p, "songs"))))
  }

  lemma {:induction false} NonEmptyKeepsAll(pieces: seq<string>)
    requires forall k :: 0 <= k < |pieces| ==> pieces[k] != ""
    ensures Text.NonEmpty(pieces) == pieces
    decreases |pieces|
  {
    if pieces != [] {
      NonEmptyKeepsAll(pieces[1..]);
    }
  }

  /**
   * The normalised songs of a list such as "s1,s2,s3" are its ids, in order,
   * none containing ',', and joining them with ',' gives the string back.
   */
  lemma NormalizeSongsOfList(s: string)
    requires forall k :: 0 <= k < |Text.Split(s, ',')| ==> Text.Split(s, ',')[k] != ""
    ensures NormalizeSongs(Some(Str(s))) == Arr(StrValues(Text.Split(s, ',')))
    ensures Text.Join(Text.Split(s, ','), ',') == s
  {
    NonEmptyKeepsAll(Text.Split(s, ','));
    Text.JoinSplit(s, ',');
  }

  /** An array of songs is kept as it is, and a missing or empty value becomes []. */
  lemma NormalizeSongsOther(v: Option<Json>)
    ensures v.Some? && v.value.Arr? ==> NormalizeSongs(v) == v.value
    ensures !Truthy(v) && !(v.Some? && v.value.Str?) ==> NormalizeSongs(v) == Arr([])
    ensures v == Some(Str("")) ==> NormalizeSongs(v) == Arr([])
  {
  }

  // ------------------------------------------------------ view counts

  /** `prev.map(song => song.id === songId ? { ...song, views: newViews } : song)`. */
  function WithViews(songs: seq<Item>, songId: Option<Json>, newViews: Option<Json>): seq<Item>
  {
    seq(|songs|, i requires 0 <= i < |songs| =>
      if StrictEq(Get(songs[i], "id"), songId) then Put(songs[i], "views", newViews) else songs[i])
  }

  /**
   * The update keeps the list's length and order; a song whose `id` is
   * `songId` gets the new count and keeps every other field; every other song
   * is unchanged.
   */
  lemma WithViewsSpec(songs: seq<Item>, songId: Option<Json>, newViews: Option<Json>)
    ensures var r := WithViews(songs, songId, newViews);
      && |r| == |songs|
      && (forall i :: 0 <= i < |songs| && !StrictEq(Get(songs[i], "id"), songId) ==> r[i] == songs[i])
      && (forall i :: 0 <= i < |songs| && StrictEq(Get(songs[i], "id"), songId) ==>
            Get(r[i], "views") == newViews && forall k :: k != "views" ==> Get(r[i], k) == Get(songs[i], k))
  {
  }

  /** Applying the same count twice is the same as once. */
  lemma WithViewsIdempotent(songs: seq<Item>, songId: Option<Json>, newViews: Option<Json>)
    ensures WithViews(WithViews(songs, songId, newViews), songId, newViews) == WithViews(songs, songId, newViews)
  {
    var r := WithViews(songs, songId, newViews);
    forall i | 0 <= i < |songs|
      ensures WithViews(r, songId, newViews)[i] == r[i]
    {
      if StrictEq(Get(songs[i], "id"), songId) {
        assert Get(r[i], "id") == Get(songs[i], "id");
        assert Put(r[i], "views", newViews) == r[i];
      }
    }
  }

  // ------------------------------------------------------ favourites

  /** The request `toggleFavorite` sends. */
  datatype FavoriteRequest =
    | DeleteFavorite(favoriteId: Option<Json>)           // DELETE /favorites/<id>
    | PostFavorite(userId: Json, songId: Option<Json>)   // POST /favorites { userId, songId }

  /** `fav.userId === userId && fav.songId === songId`. */
  predicate IsFavoriteOf(fav: Item, userId: Json, songId: Option<Json>)
  {
    StrictEq(Get(fav, "userId"), Some(userId)) && StrictEq(Get(fav, "songId"), songId)
  }

  /** `favorites.find(...)`: the first favourite of that user and song. */
  function FindFavorite(favs: seq<Item>, userId: Json, songId: Option<Json>): (r: Option<nat>)
    ensures r.Some? ==> r.value < |favs| && IsFavoriteOf(favs[r.value], userId, songId)
    ensures r.Some? ==> forall j :: 0 <= j < r.value ==> !IsFavoriteOf(favs[j], userId, songId)
    ensures r.None? <==> forall j :: 0 <= j < |favs| ==> !IsFavoriteOf(favs[j], userId, songId)
  {
    if favs == [] then None
    else if IsFavoriteOf(favs[0], userId, songId) then Some(0)
    else
      match FindFavorite(favs[1..], userId, songId)
      case None => None
      case Some(k) => Some(k + 1)
  }

  /**
   * The request for the signed-in user's uid: none without a user or uid,
   * otherwise DELETE of the first matching favourite, or POST of a new one.
   */
  function ToggleRequest(favs: seq<Item>, currentUser: Option<Item>, songId: Option<Json>): Option<FavoriteRequest>
  {
    if currentUser.None? || !Truthy(Get(currentUser.value, "uid")) then None
    else
      var uid := currentUser.value["uid"];
      match FindFavorite(favs, uid, songId)
      case Some(i) => Some(DeleteFavorite(Get(favs[i], "id")))
      case None => Some(PostFavorite(uid, songId))
  }

  /**
   * With a uid, the toggle deletes exactly when a favourite of that user and
   * song exists (by the first one's id), and otherwise adds one for them.
   */
  lemma ToggleRequestSpec(favs: seq<Item>, currentUser: Option<Item>, songId: Option<Json>)
    ensures ToggleRequest(favs, currentUser, songId).None? <==>
      currentUser.None? || !Truthy(Get(currentUser.value, "uid"))
    ensures ToggleRequest(favs, currentUser, songId).Some? ==>
      var uid := currentUser.value["uid"];
      && (ToggleRequest(favs, currentUser, songId).value.DeleteFavorite? <==>
            exists j :: 0 <= j < |favs| && IsFavoriteOf(favs[j], uid, songId))
      && (ToggleRequest(favs, currentUser, songId).value.PostFavorite? ==>
            ToggleRequest(favs, currentUser, songId).value == PostFavorite(uid, songId))
  {
  }

  /**
   * Stored favourites carry the numeric user id of the users table while the
   * toggle compares it with the Firebase uid string, so with such favourites
   * the toggle always adds.
   */
  lemma ToggleWithNumericUserIds(favs: seq<Item>, currentUser: Option<Item>, songId: Option<Json>)
    requires currentUser.Some? && Truthy(Get(currentUser.value, "uid")) && currentUser.value["uid"].Str?
    requires forall j :: 0 <= j < |favs| ==> Get(favs[j], "userId").Some? && Get(favs[j], "userId").value.Num?
    ensures ToggleRequest(favs, currentUser, songId) == Some(PostFavorite(currentUser.value["uid"], songId))
  {
  }

  // ------------------------------------------------------ the provider

  function SongsFrom(resp: Option<Payload>): (r: seq<Item>)
    ensures resp.None? || resp.value.NotAnArray? ==> r == []
    ensures resp.Some? && resp.value.Rows? ==> |r| == |resp.value.rows|
    ensures resp.Some? && resp.value.Rows? ==> forall i :: 0 <= i < |r| ==> r[i] == SongOf(resp.value.rows[i])
  {
    if resp.None? || resp.value.NotAnArray? then [] else Lists.Map(resp.value.rows, SongOf)
  }

  function AlbumsFrom(resp: Option<Payload>): (r: seq<Item>)
    ensures resp.None? || resp.value.NotAnArray? ==> r == []
    ensures resp.Some? && resp.value.Rows? ==> |r| == |resp.value.rows|
    ensures resp.Some? && resp.value.Rows? ==> forall i :: 0 <= i < |r| ==> r[i] == AlbumOf(resp.value.rows[i])
  {
    if resp.None? || resp.value.NotAnArray? then [] else Lists.Map(resp.value.rows, AlbumOf)
  }

  function PlaylistsOf(items: seq<Item>): (r: seq<Item>)
    ensures |r| == |items| && forall i :: 0 <= i < |items| ==> r[i] == PlaylistOf(items[i])
  {
    Lists.Map(items, PlaylistOf)
  }

  const FavoriteKeys := [KeyMap("user_id", "userId"), KeyMap("song_id", "songId")]
  const PlaylistKeys := [KeyMap("user_id", "userId")]

  /** The collections the provider holds and hands to every page. */
  class Catalog {
    var songs: seq<Item>
    var artists: seq<Item>
    var albums: seq<Item>
    var newAlbums: seq<Item>
    var trendingAlbums: seq<Item>
    var radios: seq<Item>
    var playlists: seq<Item>
    var favorites: seq<Item>

    constructor ()
      ensures songs == [] && artists == [] && albums == [] && newAlbums == []
      ensures trendingAlbums == [] && radios == [] && playlists == [] && favorites == []
    {
      songs, artists, albums, newAlbums := [], [], [], [];
      trendingAlbums, radios, playlists, favorites := [], [], [], [];
    }

    method FetchAllSongs(resp: Option<Payload>)
      modifies this`songs
      ensures songs == SongsFrom(resp)
    {
      songs := SongsFrom(resp);
    }

    method FetchAllArtists(resp: Option<Payload>)
      modifies this`artists
      ensures artists == if resp.None? then [] else Mapped(resp.value, Some("artist_id"), [])
    {
      if resp.None? {
        artists := [];
      } else {
        artists := MapDataKeys(resp.value, Some("artist_id"), []);
      }
    }

    method FetchAllAlbums(resp: Option<Payload>)
      modifies this`albums
      ensures albums == AlbumsFrom(resp)
    {
      albums := AlbumsFrom(resp);
    }

    method FetchAllRadios(resp: Option<Payload>)
      modifies this`radios
      ensures radios == if resp.None? then [] else Mapped(resp.value, Some("radio_id"), [])
    {
      if resp.None? {
        radios := [];
      } else {
        radios := MapDataKeys(resp.value, Some("radio_id"), []);
      }
    }

    method FetchAllPlaylists(resp: Option<Payload>)
      modifies this`playlists
      ensures playlists == if resp.None? then [] else PlaylistsOf(Mapped(resp.value, Some("playlist_id"), PlaylistKeys))
    {
      if resp.None? {
        playlists := [];
      } else {
        var mapped := MapDataKeys(resp.value, Some("playlist_id"), PlaylistKeys);
        playlists := PlaylistsOf(mapped);
      }
    }

    method FetchAllFavorites(resp: Option<Payload>)
      modifies this`favorites
      ensures favorites == if resp.None? then [] else Mapped(resp.value, Some("favorite_id"), FavoriteKeys)
    {
      if resp.None? {
        favorites := [];
      } else {
        favorites := MapDataKeys(resp.value, Some("favorite_id"), FavoriteKeys);
      }
    }

    method FetchNewAlbums(resp: Option<Payload>)
      modifies this`newAlbums
      ensures newAlbums == AlbumsFrom(resp)
    {
      newAlbums := AlbumsFrom(resp);
    }

    method FetchTrendingAlbums(resp: Option<Payload>)
      modifies this`trendingAlbums
      ensures trendingAlbums == AlbumsFrom(resp)
    {
      trendingAlbums := AlbumsFrom(resp);
    }

    /** The mount effect: every collection fetched, favourites only for a signed-in user. */
    method LoadAll(currentUser: Option<Item>, songsResp: Option<Payload>, artistsResp: Option<Payload>,
                   albumsResp: Option<Payload>, radiosResp: Option<Payload>, playlistsResp: Option<Payload>,
                   favoritesResp: Option<Payload>, newResp: Option<Payload>, trendingResp: Option<Payload>)
      modifies this
      ensures songs == SongsFrom(songsResp) && albums == AlbumsFrom(albumsResp)
      ensures artists == if artistsResp.None? then [] else Mapped(artistsResp.value, Some("artist_id"), [])
      ensures radios == if radiosResp.None? then [] else Mapped(radiosResp.value, Some("radio_id"), [])
      ensures playlists == if playlistsResp.None? then [] else PlaylistsOf(Mapped(playlistsResp.value, Some("playlist_id"), PlaylistKeys))
      ensures currentUser.Some? ==> favorites == if favoritesResp.None? then [] else Mapped(favoritesResp.value, Some("favorite_id"), FavoriteKeys)
      ensures currentUser.None? ==> favorites == old(favorites)
      ensures newAlbums == AlbumsFrom(newResp) && trendingAlbums == AlbumsFrom(trendingResp)
    {
      FetchAllSongs(songsResp);
      FetchAllArtists(artistsResp);
      FetchAllAlbums(albumsResp);
      FetchAllRadios(radiosResp);
      FetchAllPlaylists(playlistsResp);
      if currentUser.Some? {
        FetchAllFavorites(favoritesResp);
      }
      FetchNewAlbums(newResp);
      FetchTrendingAlbums(trendingResp);
    }

    /** `incrementSongViews`: on success the new count goes to the songs with that id; errors change nothing. */
    method IncrementSongViews(songId: Option<Json>, resp: Option<Item>)
      modifies this`songs
      ensures resp.None? ==> songs == old(songs)
      ensures resp.Some? ==> songs == WithViews(old(songs), songId, Get(resp.value, "newViews"))
    {
      if resp.Some? {
        songs := WithViews(songs, songId, Get(resp.value, "newViews"));
      }
    }

    /**
     * `toggleFavorite`: the request it sends (if any), and on an OK answer
     * the favourites refetched; a failed request changes nothing.
     */
    method ToggleFavorite(currentUser: Option<Item>, songId: Option<Json>, ok: bool, refetch: Option<Payload>)
      returns (request: Option<FavoriteRequest>)
      modifies this`favorites
      ensures request == ToggleRequest(old(favorites), currentUser, songId)
      ensures request.Some? && ok ==> favorites == if refetch.None? then [] else Mapped(refetch.value, Some("favorite_id"), FavoriteKeys)
      ensures request.None? || !ok ==> favorites == old(favorites)
    {
      request := ToggleRequest(favorites, currentUser, songId);
      if request.Some? && ok {
        FetchAllFavorites(refetch);
      }
    }
  }
}
