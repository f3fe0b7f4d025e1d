# MusicWebApp, modelled in Dafny

MusicWebApp is a music streaming site. Its Express back end keeps the users of the site in a SQL
table keyed by their Firebase account id. It checks Firebase ID tokens, synchronises accounts on
sign-up and login, serves and updates profiles, and links songs to playlists. A maintenance script
deletes Firebase accounts that have no row in the table. Its React front end does several things:
- caches the catalogue (songs, artists, albums, radios, playlists, favourites);
- filters and searches it;
- drives the browsing pages (music, artist, album, search, favourites) as small state machines;
- guards routes by sign-in state;
- runs the sign-up and login forms against Firebase and the back end.

The model is one Dafny module per source file of that core:

| module | models |
|---|---|
| `Cors` | the allowed-origin decision of the server |
| `TokenMiddleware` | the bearer-token guard |
| `UserStore` | the users table as a class whose methods update its rows |
| `AuthController`, `SignupController`, `LoginController`, `ProfileController`, `PlaylistSongController` | the controllers |
| `Cleanup` | the orphan-account script |
| `CatalogCache` | the shared catalogue context |
| `SearchBar`, `Navbar`, `SearchPage`, `AlbumPage`, `MusicPage`, `ArtistPage`, `FavoritePage` | the browsing components |
| `AppShell` | the router shell |
| `AuthSession` | the authentication context |
| `SignupPage`, `LoginPage` | the two forms |

`Wrappers`, `Text`, `Json`, `Lists`, `Remote`, `Routes`, `Playback` and `Popular` hold shared
vocabulary:
- JavaScript truthiness and strict equality;
- plain objects as maps from keys to JSON values;
- substring search, splitting and trimming;
- the outcome of an awaited call;
- the routes the pages navigate to;
- the sort by view count.

Each back-end handler follows the same pattern:
- a pure function from (table, next id, request) to (new table, response) specifies it;
- a method on the table class is proved to produce exactly that;
- lemmas state what the function promises, such as refusals, frames, idempotence and round trips.

Each front-end component with state is a class whose fields are its React state. Its handlers are
methods. Every awaited Firebase, back-end or browser call becomes a parameter that gives the
outcome of that call: success with a payload, or a failure.

## Model

| member | source | states |
|---|---|---|
| Cors.OriginDecisionIff | Back-end/server.js:34-49 | a request is let through exactly when it has no origin, or comes from `http://localhost`, or from `http://localhost:` followed by one or more digits; every other origin is refused with the not-allowed error |
| Cors.LocalhostPortAllowed | Back-end/server.js:38-40 | every `http://localhost:<digits>` origin is allowed, whatever the port |
| Cors.LookalikesDenied | Back-end/server.js:38-47 | https, a trailing slash, an empty port, a path after the port, a localhost subdomain and 127.0.0.1 are all refused |
| Cors.AllowedMethodsExact | Back-end/server.js:50-52 | the allowed methods are exactly GET, POST, PUT, DELETE and OPTIONS (PATCH is not among them) |
| TokenMiddleware.UserOf | Back-end/middlewares/verifyFirebaseToken.js:15-21 | the user attached to the request carries the token's uid, email, name and picture; its sign-in provider is the token's provider, or `unknown` when the token has none |
| TokenMiddleware.AuthenticateIff | Back-end/middlewares/verifyFirebaseToken.js:6-27 | the request goes on to the next handler exactly when the header starts with `Bearer `, a token follows, and Firebase verifies it; the user attached is then the decoded token's; a missing or non-Bearer header gives the missing-header 401 |
| TokenMiddleware.TokenOfBearer | Back-end/middlewares/verifyFirebaseToken.js:10 | splitting `Bearer <t>` on spaces gives back `t` for any space-free token |
| TokenMiddleware.VerifyFirebaseToken | Back-end/middlewares/verifyFirebaseToken.js:3-28 | on success the exchange gains the user and `next` is called once, with no status set; on refusal the status becomes 401 with the refusal's message, and neither the user nor `next` is touched |
| UserStore.FindOrCreate | Back-end/controllers/signupController.js:18-26 | an existing row for the uid is returned unchanged and not created; otherwise the row built from the defaults is inserted and reported as created, unless the uniqueness rules forbid it, in which case nothing changes |
| UserStore.FindOrCreateIdempotent | Back-end/controllers/signupController.js:18-26 | a second find-or-create for the same uid leaves the table as the first left it and returns the same row, not created |
| UserStore.FindOrCreateFrame | Back-end/controllers/loginController.js:18-26 | find-or-create adds at most the requested uid and never alters or removes any other row |
| UserStore.UserTable.constructor | Back-end/models/user.js:2-31 | a new table is empty and satisfies the table invariant (rows keyed by their uid, unique ids and emails) |
| UserStore.UserTable.FindOne | Back-end/controllers/authController.js:18 | finds a row exactly when the uid has one, and returns that row |
| UserStore.UserTable.Create | Back-end/controllers/authController.js:29-34 | inserts the new row under the next id when the uid and email are unused; otherwise the insert fails and the table is unchanged |
| UserStore.UserTable.UpdateAccount | Back-end/controllers/authController.js:22-26 | rewrites email, username and image of the uid's row when the new email is not another user's; otherwise fails and changes nothing |
| UserStore.UserTable.UpdateWhereUid | Back-end/controllers/profileController.js:130-138 | reports one affected row and patches it when the uid exists, else zero and no change |
| UserStore.Patched | Back-end/controllers/profileController.js:121-127 | a patch keeps id, uid, email and creation time, and replaces username and image only when they were supplied |
| UserStore.UserTable.FindOrCreateByUid | Back-end/controllers/signupController.js:18-26 | the table and the result are those of `FindOrCreate` on the old table and the old next id |
| AuthController.EffectiveUsername | Back-end/controllers/authController.js:11-14 | the stored username is never empty: the supplied one when it is not blank, else the part of the email before `@`, else `user_` followed by the random number |
| AuthController.ImageOrNull | Back-end/controllers/authController.js:25-33 | a profile image is stored exactly when one was supplied and is truthy, else null |
| AuthController.SyncUser | Back-end/controllers/authController.js:4-42 | the table and the response are those of the `Sync` specification on the old table |
| AuthController.SyncMissingFieldsIff | Back-end/controllers/authController.js:7-9 | the 400 missing-fields answer is given exactly when the uid or the email is missing, and then the table is untouched |
| AuthController.SyncUpserts | Back-end/controllers/authController.js:16-35 | with both fields present: the sync fails exactly when the email belongs to another user, and then changes nothing; otherwise the uid's row exists afterwards, holds the request's email, effective username and image, no other row changes, and the row is returned |
| AuthController.SyncKeepsIdentity | Back-end/controllers/authController.js:20-26 | re-syncing an existing user keeps their id and creation time |
| AuthController.SyncIdempotent | Back-end/controllers/authController.js:4-42 | replaying a successful sync leaves the table as it is and returns the same answer |
| AuthController.SyncCreatedAlwaysFalse | Back-end/controllers/authController.js:37 | the response's `created` flag is false even when the call created the row (the flag tests the user after it was assigned) |
| SignupController.Defaults | Back-end/controllers/signupController.js:18-26 | a new row takes uid, email and username from the request and the image from the Firebase record's photo URL when it has one |
| SignupController.HandleSignup | Back-end/controllers/signupController.js:6-37 | the table and the response are those of the `Signup` specification on the old table |
| SignupController.SignupRefusals | Back-end/controllers/signupController.js:10-36 | the 400 answer is given exactly when uid, email or username is missing; an unknown Firebase account gives the 500 answer; no refusal changes the table |
| SignupController.SignupExistingUser | Back-end/controllers/signupController.js:18-31 | an already registered uid gets its own row back with the already-exists message and the table unchanged |
| SignupController.SignupNewUser | Back-end/controllers/signupController.js:18-31 | a new uid with a free email is inserted with the request's email and username and the default image, and gets the created message |
| SignupController.SignupTwice | Back-end/controllers/signupController.js:18-31 | signing up twice leaves the table as the first call left it and returns the same row, now not created |
| LoginController.IdTokenOfBearer | Back-end/controllers/loginController.js:8 | the token after `Bearer ` is read back exactly for any token without that separator |
| LoginController.IdTokenNeedsBearer | Back-end/controllers/loginController.js:8-11 | a token is found exactly when an authorization header is present and contains `Bearer ` |
| LoginController.Defaults | Back-end/controllers/loginController.js:20-25 | a user first seen at login gets the token's uid and email, the token's name or else the email as username, and the token's picture when it has one |
| LoginController.HandleLogin | Back-end/controllers/loginController.js:6-36 | the table and the response are those of the `Login` specification on the old table |
| LoginController.LoginRefusals | Back-end/controllers/loginController.js:8-35 | no-token is answered exactly when no token could be read; a token Firebase rejects gives the invalid-token answer; no refusal changes the table |
| LoginController.LoginReturnsCallersRow | Back-end/controllers/loginController.js:18-31 | a successful login returns the row of the token's uid, which is then the only key that may have been added; an existing row is returned unchanged, a new one is built from the defaults |
| LoginController.LoginWithoutEmail | Back-end/controllers/loginController.js:18-26 | a verified token without an email logs in exactly when the uid already has a row, since a new row needs an email |
| ProfileController.MimeRun | Back-end/controllers/profileController.js:79 | the MIME type read from a data URL is the longest prefix of MIME characters |
| ProfileController.ParseDataUrlSound | Back-end/controllers/profileController.js:79 | whatever the data-URL pattern accepts is a well-formed MIME type and base64 payload that rebuild the string exactly |
| ProfileController.ParseDataUrlComplete | Back-end/controllers/profileController.js:79-81 | every well-formed `data:<mime>;base64,<payload>` string is accepted and gives back its MIME type and payload |
| ProfileController.Extension | Back-end/controllers/profileController.js:86-91 | the file extension is `.png` exactly when the MIME type mentions png, `.jpg` exactly when it mentions jpeg or jpg but not png, and there is none otherwise |
| ProfileController.ObjectPath | Back-end/controllers/profileController.js:105 | uploaded images are stored under `profile_images/<uid>/` followed by the file name |
| ProfileController.ViewOf | Back-end/controllers/profileController.js:54-59 | the profile sent back holds the row's username, email, image and creation time |
| ProfileController.FirstVisitUser | Back-end/controllers/profileController.js:38-43 | a first-visit row uses the token's email, or the first six characters of the uid at the fallback domain; it uses the token's name, or `User-` and the same six characters; it uses the placeholder image |
| ProfileController.HandleGetProfile | Back-end/controllers/profileController.js:21-65 | the table and the response are those of the `GetProfile` specification on the old table |
| ProfileController.GetProfileOutcomes | Back-end/controllers/profileController.js:25-59 | a known uid gets its profile with the table unchanged; an unknown one gets a first-visit row inserted and returned; the 500 answer comes exactly when that insert is impossible |
| ProfileController.GetProfileIdempotent | Back-end/controllers/profileController.js:30-51 | fetching the profile again after a successful fetch changes nothing and returns the same profile |
| ProfileController.GetProfileFallbackEmailClash | Back-end/controllers/profileController.js:40 | two email-less users whose uids share their first six characters collide on the fallback email, so the second one's first visit fails |
| ProfileController.ImageStepOf | Back-end/controllers/profileController.js:78-118 | there is no upload exactly when no image was sent; the invalid-format error comes exactly when the data URL does not parse; the unsupported-format error comes exactly when its type has no extension; an upload's URL is the storage answer for that user's object path |
| ProfileController.HandleUpdateProfile | Back-end/controllers/profileController.js:67-153 | the table and the response are those of the `UpdateProfile` specification on the old table |
| ProfileController.UpdateProfileEffects | Back-end/controllers/profileController.js:120-147 | a failed update changes nothing; a successful one changes only the caller's row, keeps its email, id and creation time, sets the username only when one was sent, keeps the image when none was sent, and returns the updated profile |
| ProfileController.UpdateProfileNotFound | Back-end/controllers/profileController.js:135-138 | updating a uid with no row answers 404 and changes nothing |
| PlaylistSongController.PlaylistSongTable.constructor | Back-end/models/PlaylistSong.js:3-12 | a new link table is empty and holds the given playlists and songs |
| PlaylistSongController.PlaylistSongTable.FindOne | Back-end/controllers/playlistSongController.js:32 | finds a link exactly when it is stored |
| PlaylistSongController.PlaylistSongTable.Create | Back-end/controllers/playlistSongController.js:37 | a link is stored exactly when both its playlist and its song exist (the foreign keys) |
| PlaylistSongController.PlaylistSongTable.Destroy | Back-end/controllers/playlistSongController.js:52-54 | removes the link and reports one deleted row when it was stored, else zero |
| PlaylistSongController.PlaylistSongTable.AddSongToPlaylist | Back-end/controllers/playlistSongController.js:25-43 | the links and the response are those of the `Add` specification on the old links |
| PlaylistSongController.PlaylistSongTable.RemoveSongFromPlaylist | Back-end/controllers/playlistSongController.js:45-65 | the links and the response are those of the `Remove` specification on the old links |
| PlaylistSongController.AddOutcomes | Back-end/controllers/playlistSongController.js:27-38 | missing ids give 400; an existing link gives the duplicate answer; the link is added, one more than before, exactly when it is new and both ends exist; otherwise nothing changes |
| PlaylistSongController.AddKeepsReferences | Back-end/controllers/playlistSongController.js:37-42 | adding never stores a link to a missing playlist or song |
| PlaylistSongController.RemoveOutcomes | Back-end/controllers/playlistSongController.js:52-60 | removal deletes exactly that link and answers removed exactly when it was there, not-found otherwise |
| PlaylistSongController.AddThenRemove | Back-end/controllers/playlistSongController.js:25-60 | removing a link just added restores the links as they were |
| PlaylistSongController.AddTwice | Back-end/controllers/playlistSongController.js:32-35 | adding the same link twice is refused as a duplicate the second time and changes nothing |
| Cleanup.AuthDirectory.ListUsers | Back-end/scripts/cleanupOrphanFirebaseUsers.js:12 | a page is the slice of the account listing from the token onward, at most `max` long, with a next-page token exactly when accounts remain |
| Cleanup.AuthDirectory.DeleteUser | Back-end/scripts/cleanupOrphanFirebaseUsers.js:21 | deleting removes exactly that account |
| Cleanup.Stop | Back-end/scripts/cleanupOrphanFirebaseUsers.js:28-30 | a failure stops the walk at or before the end of the listing, and without a failure it covers the whole listing |
| Cleanup.PageCount | Back-end/scripts/cleanupOrphanFirebaseUsers.js:10-25 | the number of pages listed is at least one and is the least number of 1000-account pages that covers the listing |
| Cleanup.ReconcilePage | Back-end/scripts/cleanupOrphanFirebaseUsers.js:15-23 | after a page, every orphan listed so far is deleted; a failure inside the page stops at the failing account and reports it |
| Cleanup.CleanupOrphanedFirebaseUsers | Back-end/scripts/cleanupOrphanFirebaseUsers.js:8-31 | the remaining accounts are the old ones minus the orphans listed before the failure point (all orphans when nothing fails); the page tokens are 0, 1000, 2000 and so on, one per page |
| Cleanup.AccountsWithRowsSurvive | Back-end/scripts/cleanupOrphanFirebaseUsers.js:16-22 | an account that has a database row is never deleted |
| Cleanup.ListedOrphansDeleted | Back-end/scripts/cleanupOrphanFirebaseUsers.js:19-22 | without failures, every listed account without a row is deleted |
| Cleanup.FailureKeepsTheRest | Back-end/scripts/cleanupOrphanFirebaseUsers.js:28-30 | after a failure, accounts first listed at or after the failing one survive |
| Cleanup.CleanupIdempotent | Back-end/scripts/cleanupOrphanFirebaseUsers.js:15-23 | running the cleanup again on its own result deletes nothing more |
| CatalogCache.MapDataKeys | Front-end/src/components/datacontext.jsx:37-57 | a non-array answer gives no items; an array gives one mapped item per element, in order |
| CatalogCache.CopyKeysSpec | Front-end/src/components/datacontext.jsx:48-54 | copying the foreign keys sets each target to its source when the source is present and keeps the target otherwise; every other key is untouched |
| CatalogCache.MapItemSpec | Front-end/src/components/datacontext.jsx:39-56 | a mapped item's `id` is the value of the id key when that is present, else its own `id`; each camelCase key copies its snake_case source when present; all other keys are kept |
| CatalogCache.NameOr | Front-end/src/components/datacontext.jsx:82-83 | a label is the nested object's `name` when the object is there, else the fallback text |
| CatalogCache.SongIdsOf | Front-end/src/components/datacontext.jsx:74-79 | a song's `id`, `artistId`, `albumId` and `audio` come from `song_id`, `artist_id`, `album_id` and `audioUrl`; every other field is kept |
| CatalogCache.SongLabelsOf | Front-end/src/components/datacontext.jsx:80-83 | a song's album and song art are its cover image; its artist and album labels are the nested names or the unknown-artist and unknown-album texts; every other field is kept |
| CatalogCache.SongOf | Front-end/src/components/datacontext.jsx:74-84 | normalising a song changes no field outside the eight it sets |
| CatalogCache.AlbumOf | Front-end/src/components/datacontext.jsx:126-132 | an album's `id`, `artistId` and `albumArt` come from `album_id`, `artist_id` and `cover_image`; its artist label is the nested name or the unknown-artist text; other fields are kept |
| CatalogCache.ArtistNameDefinedWhenNoArtist | Front-end/src/components/datacontext.jsx:82-83 | a song or album without a joined artist is labelled with the unknown-artist text, never left undefined |
| CatalogCache.PlaylistOf | Front-end/src/components/datacontext.jsx:176-179 | a playlist keeps every field except `songs`, which is normalised to a list |
| CatalogCache.NormalizeSongsOfList | Front-end/src/components/datacontext.jsx:178 | a comma-separated song list without empty pieces becomes the list of its pieces, and joining them back gives the original string |
| CatalogCache.NormalizeSongsOther | Front-end/src/components/datacontext.jsx:178 | an array of songs is kept as it is; a missing, falsy non-string or empty-string song list becomes the empty list |
| CatalogCache.WithViewsSpec | Front-end/src/components/datacontext.jsx:276-279 | updating the views keeps the number of songs; songs whose id is strictly equal to the given one get the new view count and keep every other field; all other songs are unchanged |
| CatalogCache.WithViewsIdempotent | Front-end/src/components/datacontext.jsx:276-279 | applying the same view update twice gives the same songs as once |
| CatalogCache.FindFavorite | Front-end/src/components/datacontext.jsx:301 | the favourite found is the first that belongs to the user and the song, and none is found exactly when no entry does |
| CatalogCache.ToggleRequestSpec | Front-end/src/components/datacontext.jsx:291-318 | no request is sent exactly when nobody is signed in or the user has no uid; otherwise a delete is sent exactly when a matching favourite exists, and else a post of the uid and the song |
| CatalogCache.ToggleWithNumericUserIds | Front-end/src/components/datacontext.jsx:298-301 | when every stored favourite has a numeric user id and the signed-in uid is a string, the strict comparison never matches, so toggling always posts |
| CatalogCache.SongsFrom | Front-end/src/components/datacontext.jsx:63-90 | a failed or non-array answer gives no songs; otherwise one normalised song per row, in order |
| CatalogCache.AlbumsFrom | Front-end/src/components/datacontext.jsx:116-138 | a failed or non-array answer gives no albums; otherwise one normalised album per row, in order |
| CatalogCache.PlaylistsOf | Front-end/src/components/datacontext.jsx:176-180 | each playlist is normalised, in order, and none is added or dropped |
| CatalogCache.Catalog.constructor | Front-end/src/components/datacontext.jsx:13-20 | every catalogue list starts empty |
| CatalogCache.Catalog.FetchAllSongs | Front-end/src/components/datacontext.jsx:63-90 | the songs become the normalised rows of the answer, or empty on failure |
| CatalogCache.Catalog.FetchAllArtists | Front-end/src/components/datacontext.jsx:96-110 | the artists become the answer's rows keyed by `artist_id`, or empty on failure |
| CatalogCache.Catalog.FetchAllAlbums | Front-end/src/components/datacontext.jsx:116-138 | the albums become the normalised rows of the answer, or empty on failure |
| CatalogCache.Catalog.FetchAllRadios | Front-end/src/components/datacontext.jsx:144-158 | the radios become the answer's rows keyed by `radio_id`, or empty on failure |
| CatalogCache.Catalog.FetchAllPlaylists | Front-end/src/components/datacontext.jsx:164-185 | the playlists become the answer's rows keyed by `playlist_id` with their song lists normalised, or empty on failure |
| CatalogCache.Catalog.FetchAllFavorites | Front-end/src/components/datacontext.jsx:191-208 | the favourites become the answer's rows keyed by `favorite_id` with user and song ids copied, or empty on failure |
| CatalogCache.Catalog.FetchNewAlbums | Front-end/src/components/datacontext.jsx:214-233 | the new albums become the normalised rows of the answer, or empty on failure |
| CatalogCache.Catalog.FetchTrendingAlbums | Front-end/src/components/datacontext.jsx:239-258 | the trending albums become the normalised rows of the answer, or empty on failure |
| CatalogCache.Catalog.LoadAll | Front-end/src/components/datacontext.jsx:336-348 | loading fills every list from its own answer; favourites are fetched only when someone is signed in and are otherwise left as they were |
| CatalogCache.Catalog.IncrementSongViews | Front-end/src/components/datacontext.jsx:265-283 | a successful call sets the returned view count on the matching songs; a failed one leaves the songs unchanged |
| CatalogCache.Catalog.ToggleFavorite | Front-end/src/components/datacontext.jsx:291-332 | the request sent is the one `ToggleRequest` chooses; after a successful request the favourites are refetched; with no request or a failure they are unchanged |
| SearchBar.SearchBox.constructor | Front-end/src/components/Search.jsx:6-7 | the search box starts with no word and no suggestions |
| SearchBar.SearchBox.Shown | Front-end/src/components/Search.jsx:76 | the drop-down shows the first suggestions, at most the display limit |
| SearchBar.SearchBox.HandleFilter | Front-end/src/components/Search.jsx:10-22 | typing stores the word and sets the suggestions to those the word matches |
| SearchBar.SearchBox.ClearInput | Front-end/src/components/Search.jsx:24-27 | clearing empties both the word and the suggestions |
| SearchBar.SearchBox.HandleSearchSubmission | Front-end/src/components/Search.jsx:29-33 | submitting navigates to the search route for the current word, when it leads anywhere |
| SearchBar.SearchBox.HandleKeyPress | Front-end/src/components/Search.jsx:35-39 | only Enter submits; any other key navigates nowhere |
| SearchBar.SearchBox.HandleSuggestionClick | Front-end/src/components/Search.jsx:41-44 | clicking a suggestion clears the box and searches for that suggestion's title |
| SearchBar.NoSuggestions | Front-end/src/components/Search.jsx:14-21 | an empty word or missing data gives no suggestions |
| SearchBar.SuggestionsExact | Front-end/src/components/Search.jsx:15-17 | for a non-empty word, an entry is suggested exactly when it is in the data and its title contains the word ignoring case, and the suggestions keep the data's order |
| SearchBar.SubmissionIff | Front-end/src/components/Search.jsx:30 | submission navigates exactly when the word has a non-space character |
| SearchBar.SubmissionQuery | Front-end/src/components/Search.jsx:30-31 | the query submitted is the trimmed word: non-empty, with no space at either end, and unchanged by trimming again |
| Navbar.LogoOnlyWhenSignedOut | Front-end/src/components/navbar.jsx:15 | the logo is shown exactly to signed-out visitors on the landing, login and sign-up pages |
| Navbar.SongsFlat | Front-end/src/components/navbar.jsx:35-41 | each song of an album gives exactly one search entry |
| Navbar.PushSongs | Front-end/src/components/navbar.jsx:35-41 | the loop over songs appends exactly their flattened entries, in order |
| Navbar.PushAlbums | Front-end/src/components/navbar.jsx:28-42 | the loop over albums appends each album's entry followed by its songs, in order |
| Navbar.FlattenData | Front-end/src/components/navbar.jsx:17-47 | the search list is the pre-order flattening of the artist tree, or empty when no data came back |
| Navbar.PushArtists | Front-end/src/components/navbar.jsx:20-43 | the loop over artists produces each artist's entry followed by its albums' entries, in order |
| Navbar.PreOrder | Front-end/src/components/navbar.jsx:21-43 | the flattening of artists splits at any artist, and that artist's part starts with its own entry |
| Navbar.AlbumPreOrder | Front-end/src/components/navbar.jsx:28-42 | the flattening of albums splits at any album, and that album's part is its entry followed by its songs |
| Navbar.AlbumsFlatLength | Front-end/src/components/navbar.jsx:28-42 | there is one entry per album plus one per song in those albums |
| Navbar.FlattenLength | Front-end/src/components/navbar.jsx:20-43 | there is one entry per artist, album and song of the tree, and nothing else |
| Navbar.FlattenAbsent | Front-end/src/components/navbar.jsx:18-46 | missing data flattens to no entries |
| Navbar.SearchSelect | Front-end/src/components/navbar.jsx:65-69 | selecting navigates exactly when an item with a truthy title was chosen, and then to the search for that title |
| Navbar.NavbarState.constructor | Front-end/src/components/navbar.jsx:11 | the search data starts empty |
| Navbar.NavbarState.FetchSearchData | Front-end/src/components/navbar.jsx:50-56 | a successful fetch replaces the search data with the flattened tree; a failed one keeps it |
| SearchPage.Tag | Front-end/src/components/Searchpage.jsx:195-199 | tagging keeps every item and order and sets only its result kind |
| SearchPage.SearchPageState.constructor | Front-end/src/components/Searchpage.jsx:117-129 | the page starts on the results view with an empty query, no results and nothing selected |
| SearchPage.SearchPageState.OnLocationSearch | Front-end/src/components/Searchpage.jsx:132-140 | a new `q` parameter becomes the query (empty when absent), returns to the results view and clears every selection |
| SearchPage.SearchPageState.OnCatalogOrQuery | Front-end/src/components/Searchpage.jsx:143-204 | the results become those of the filtering specification for the catalogue and query; the query, view and selections are untouched |
| SearchPage.SearchPageState.SelectArtist | Front-end/src/components/Searchpage.jsx:215-218 | choosing an artist shows its profile and changes no other selection |
| SearchPage.SearchPageState.SelectAlbum | Front-end/src/components/Searchpage.jsx:220-223 | choosing an album shows its songs and changes no other selection |
| SearchPage.SearchPageState.SelectPlaylist | Front-end/src/components/Searchpage.jsx:225-228 | choosing a playlist shows its songs and changes no other selection |
| SearchPage.SearchPageState.HandleBack | Front-end/src/components/Searchpage.jsx:230-237 | going back from any detail view returns to the results and clears all selections; on the results view it changes nothing |
| SearchPage.SearchPageState.TopResultClick | Front-end/src/components/Searchpage.jsx:305-310 | a top song or radio plays with the songs as queue; an artist, album or playlist opens its view with that item selected; each selection changes only for its own kind, and an item of any other kind changes neither the view nor the selections and plays nothing |
| SearchPage.PlayTrack | Front-end/src/components/Searchpage.jsx:208-212 | playing a track hands the player that song with the given queue |
| SearchPage.LoadingOrErrorClears | Front-end/src/components/Searchpage.jsx:144-151 | while loading or after an error every result list is empty and no results are reported |
| SearchPage.EmptyQueryShowsAll | Front-end/src/components/Searchpage.jsx:154-162 | an empty query shows the whole catalogue with no top results, and reports no search results |
| SearchPage.FilteredExact | Front-end/src/components/Searchpage.jsx:166-191 | for a non-empty query, each result list holds exactly the catalogue items of its kind that match the query, in catalogue order |
| SearchPage.TopResultsMix | Front-end/src/components/Searchpage.jsx:194-200 | the top results are a reordering of the first few matches of each kind, at most five kinds' worth |
| SearchPage.HasSearchResultsIff | Front-end/src/components/Searchpage.jsx:258-264 | results are reported exactly when the query is non-empty and some catalogue item matches it |
| AlbumPage.Lookup | Front-end/src/components/Album.jsx:175 | a looked-up song is one of the catalogue songs, and its `songId` is strictly equal to the entry's `song_id` |
| AlbumPage.Resolve | Front-end/src/components/Album.jsx:175 | resolving an album's entries yields catalogue songs only, never more than there are entries |
| AlbumPage.ResolveAppend | Front-end/src/components/Album.jsx:175 | resolving a concatenation of entries resolves each part in turn |
| AlbumPage.ResolveAll | Front-end/src/components/Album.jsx:175 | when every entry has a song, the queue holds exactly those songs, one per entry, in order |
| AlbumPage.AlbumClick | Front-end/src/components/Album.jsx:172-179 | clicking an album plays exactly when its first entry resolves to a song; that song heads the resolved queue; otherwise nothing plays |
| AlbumPage.AlbumPageState.constructor | Front-end/src/components/Album.jsx:80-82 | the page starts on the albums view with nothing selected |
| AlbumPage.AlbumPageState.HandleAlbumClick | Front-end/src/components/Album.jsx:168-180 | clicking an album selects it, shows its songs and returns what `AlbumClick` plays |
| AlbumPage.AlbumPageState.HandleSongClick | Front-end/src/components/Album.jsx:182-186 | clicking a song plays it with the selected album's resolved songs as queue, or an empty queue when no album is selected |
| AlbumPage.AlbumPageState.HandleBackToAlbums | Front-end/src/components/Album.jsx:188-192 | going back shows the albums and clears both selections |
| AlbumPage.AlbumPageState.HandleSelectPlaylist | Front-end/src/components/Album.jsx:195-201 | choosing a playlist selects it and shows its songs, keeping the album selection |
| AlbumPage.AlbumPageState.HandlePlayTrackFromPlaylist | Front-end/src/components/Album.jsx:204-207 | a playlist track plays with the playlist's songs as queue |
| Playback.ObjectsOf | Front-end/src/components/Album.jsx:206 | a falsy song list gives an empty queue; otherwise the queue holds its objects, one per element, in order |
| Playback.PlayFromPlaylist | Front-end/src/components/Music.jsx:220-223 | the track chosen plays with the selected playlist's songs as queue, empty when no playlist is selected |
| Popular.Insert | Front-end/src/components/Music.jsx:372 | inserting into a list sorted by descending views keeps it sorted and one longer |
| Popular.InsertPermutes | Front-end/src/components/Music.jsx:372 | insertion adds exactly the new song and loses none |
| Popular.SortByViews | Front-end/src/components/Music.jsx:372 | sorting by views gives a list in descending view order with the same songs; the sort is stable, so songs with equal views keep their catalogue order |
| Popular.PopularTracksChosen | Front-end/src/components/Music.jsx:371-372 | the popular tracks are the first six of the artist's songs sorted by views, or all of them when there are fewer; they are sorted by views and are drawn from the artist's songs, each at most as often as it occurs there |
| Popular.PopularTracksMaximal | Front-end/src/components/Artist.jsx:244-246 | a song of the artist that is left out of the popular tracks has no more views than any track shown |
| MusicPage.Back | Front-end/src/components/Music.jsx:229-246 | back from an album returns to its artist, or home when none; back from a playlist or an artist returns home and clears that selection; at home nothing changes |
| MusicPage.BackReachesHome | Front-end/src/components/Music.jsx:229-246 | two presses of back always reach home, and once home back stays there |
| MusicPage.PlayAll | Front-end/src/components/Music.jsx:353 | play-all finds nothing to play exactly when no song carries the artist's id |
| MusicPage.PlayAllFirstOfArtist | Front-end/src/components/Music.jsx:353 | play-all starts with the first song of the artist and queues all songs |
| MusicPage.PopularTracksOfArtist | Front-end/src/components/Music.jsx:371-372 | the popular tracks are the six most viewed songs carrying the artist's id, or all of them when there are fewer; they are sorted by views, and no song of the artist that is left out has more views than a track shown |
| MusicPage.MusicPageState.constructor | Front-end/src/components/Music.jsx:87-93 | the page starts at home with nothing selected |
| MusicPage.MusicPageState.HandlePlayTrack | Front-end/src/components/Music.jsx:181-184 | a track plays with all songs as queue |
| MusicPage.MusicPageState.HandleSelectArtist | Front-end/src/components/Music.jsx:190-193 | choosing an artist selects it and shows its profile, keeping the other selections |
| MusicPage.MusicPageState.HandleSelectAlbum | Front-end/src/components/Music.jsx:199-202 | choosing an album selects it and shows its songs, keeping the other selections |
| MusicPage.MusicPageState.HandleSelectPlaylist | Front-end/src/components/Music.jsx:208-214 | choosing a playlist selects it and shows its songs, keeping the other selections |
| MusicPage.MusicPageState.HandlePlayTrackFromPlaylist | Front-end/src/components/Music.jsx:220-223 | a playlist track plays with the playlist's songs as queue |
| MusicPage.MusicPageState.HandleBack | Front-end/src/components/Music.jsx:229-246 | back moves the page to the state `Back` gives |
| MusicPage.MusicPageState.HandlePlayAll | Front-end/src/components/Music.jsx:353 | play-all plays what `PlayAll` chooses for the selected artist |
| ArtistPage.Back | Front-end/src/components/Artist.jsx:162-178 | back from an album returns to its artist, or to all artists when none; back from an artist returns to all artists and clears it; on all artists nothing changes |
| ArtistPage.BackReachesAllArtists | Front-end/src/components/Artist.jsx:162-178 | two presses of back always reach the list of all artists |
| ArtistPage.AlbumPlay | Front-end/src/components/Artist.jsx:151-160 | choosing an album queues its songs and plays the first one, or nothing when it has none |
| ArtistPage.AlbumQueueExact | Front-end/src/components/Artist.jsx:154 | the album queue holds exactly the catalogue songs on that album, in catalogue order |
| ArtistPage.PlayAll | Front-end/src/components/Artist.jsx:231-234 | play-all finds nothing exactly when no song names the artist; otherwise it plays the first song in the catalogue that names the artist, with all songs queued |
| ArtistPage.PopularTracksOfArtist | Front-end/src/components/Artist.jsx:244-246 | the popular tracks are the six most viewed songs that name the artist, or all of them when there are fewer; they are sorted by views, and no song of the artist that is left out has more views than a track shown |
| ArtistPage.ArtistPageState.constructor | Front-end/src/components/Artist.jsx:65-67 | the page starts on all artists with nothing selected |
| ArtistPage.ArtistPageState.HandlePlayTrack | Front-end/src/components/Artist.jsx:142-144 | a track plays with all songs as queue |
| ArtistPage.ArtistPageState.HandleSelectArtist | Front-end/src/components/Artist.jsx:146-149 | choosing an artist selects it and shows its profile |
| ArtistPage.ArtistPageState.HandleSelectAlbum | Front-end/src/components/Artist.jsx:151-160 | choosing an album selects it, shows its songs and plays what `AlbumPlay` chooses |
| ArtistPage.ArtistPageState.HandleBack | Front-end/src/components/Artist.jsx:162-178 | back moves the page to the state `Back` gives |
| ArtistPage.ArtistPageState.HandlePlayAll | Front-end/src/components/Artist.jsx:231-234 | play-all plays what `PlayAll` chooses for the selected artist: the first song that names the artist |
| FavoritePage.Fallback | Front-end/src/components/favorite.jsx:79-84 | a displayed field is the song's own value when it is truthy, else the placeholder text |
| FavoritePage.CardOf | Front-end/src/components/favorite.jsx:64-97 | a favourite becomes a card exactly when it carries a song; the card shows the song's title, artist name, album name, audio URL and cover, each with its placeholder, and always has a truthy id |
| FavoritePage.Cards | Front-end/src/components/favorite.jsx:64-98 | there are never more cards than favourites, and every card comes from one of them |
| FavoritePage.NoCardsWithoutData | Front-end/src/components/favorite.jsx:53-105 | a signed-out visitor, or one without favourites, sees no cards |
| FavoritePage.CardsFromUserOne | Front-end/src/components/favorite.jsx:57-98 | every card shown comes from a favourite of the displayed user that carries a song |
| FavoritePage.CardsAppend | Front-end/src/components/favorite.jsx:72-98 | the cards of two lists of favourites, one after the other, are the cards of each in turn |
| FavoritePage.PlayFavorite | Front-end/src/components/favorite.jsx:206-218 | a favourite plays exactly when it has an audio URL, with the favourites as queue |
| FavoritePage.PlayableIffAudio | Front-end/src/components/favorite.jsx:206-212 | a card is playable exactly when its song has a truthy audio URL |
| FavoritePage.FavoritePageState.constructor | Front-end/src/components/favorite.jsx:14-16 | the page starts with no favourites, no cards and no error |
| FavoritePage.FavoritePageState.OnUserChange | Front-end/src/components/favorite.jsx:19-45 | signing out clears favourites and cards; a successful fetch stores the favourites and clears the error; a failed one sets the error and keeps the rest |
| FavoritePage.FavoritePageState.OnFavoritesChange | Front-end/src/components/favorite.jsx:48-106 | the cards become those built from the stored favourites; the favourites and error are untouched |
| FavoritePage.FavoritePageState.HandlePlayFavoriteSong | Front-end/src/components/favorite.jsx:206-218 | a click plays what `PlayFavorite` allows, with the current cards as queue |
| AppShell.PrivateRoute | Front-end/src/App.jsx:88-96 | a private page shows the loader exactly while the session loads, then renders exactly for a signed-in user and otherwise redirects to the login page |
| AppShell.PublicOnlyRoute | Front-end/src/App.jsx:102-115 | a public-only page shows the loader exactly while the session loads, then renders exactly for a signed-out visitor and otherwise redirects to the music page |
| AppShell.GuardsComplement | Front-end/src/App.jsx:88-115 | once loaded, exactly one of the two guards renders its page |
| AppShell.LandingRedirect | Front-end/src/App.jsx:170-175 | the landing page redirects exactly a signed-in user, once loading is over, and then to the music page |
| AppShell.AppState.constructor | Front-end/src/App.jsx:122-123 | nothing plays and the song list is empty at start |
| AppShell.AppState.SyncAllSongs | Front-end/src/App.jsx:163-167 | the player's song list copies the catalogue's songs once they are loaded and non-empty, and otherwise keeps its old songs, so it never becomes empty again |
| AppShell.AppState.SetCurrentPlayingSong | Front-end/src/App.jsx:122 | a play request sets the current song and leaves the song list alone |
| AppShell.AppState.PlayerInput | Front-end/src/App.jsx:53-57 | the player receives the current song and the full song list as its queue |
| AppShell.HandleSignOutAndRedirect | Front-end/src/App.jsx:180-187 | a successful sign-out leaves nobody signed in and goes to the landing page; a failed one stays put and keeps both the Firebase user and the back-end user, but the stored token is already gone; the loading flag is never touched |
| AuthSession.Effective | Front-end/src/components/AuthContext.jsx:78-82 | the user the app sees is the back-end user when there is one, else the Firebase user, and there is one exactly when either is present |
| AuthSession.AuthState.constructor | Front-end/src/components/AuthContext.jsx:15-19 | the session starts loading with nobody signed in and the stored token as found |
| AuthSession.AuthState.OnAuthStateChanged | Front-end/src/components/AuthContext.jsx:22-34 | a Firebase change sets the Firebase user, drops the back-end user and ends loading, so the app sees exactly the new user |
| AuthSession.AuthState.Login | Front-end/src/components/AuthContext.jsx:57-61 | logging in with a back-end user makes that user the one the app sees |
| AuthSession.AuthState.LogOut | Front-end/src/components/AuthContext.jsx:64-75 | the stored token is always removed; a successful sign-out clears both users, while a failed one keeps them and rethrows |
| Remote.BackendFailure | Front-end/src/components/login.jsx:32-35 | a back-end refusal carries the body's `message` when it is truthy, else the fallback text, and has no Firebase error code |
| SignupPage.EmailName | Front-end/src/components/signup.jsx:33-37 | the name taken from an email is the part before its first `@`, present exactly when there is an email |
| SignupPage.UsernameToSync | Front-end/src/components/signup.jsx:33-37 | the username synced is never empty: the form's username, else the account's display name, else the email's name part, else `unknown_user` |
| SignupPage.SignInProvider | Front-end/src/components/signup.jsx:39-46 | the provider synced is the first linked provider, else `anonymous` for anonymous accounts, else `custom_token` when a token was obtained, else `unknown` |
| SignupPage.SyncRequestFor | Front-end/src/components/signup.jsx:30-73 | a sync is sent exactly when the ID token was obtained; it carries the token as a Bearer header, the account's uid, email and photo, the chosen username and the provider |
| SignupPage.ListenerSyncIgnoresForm | Front-end/src/components/signup.jsx:76-85 | the sync the auth listener sends names the user by display name, else by the email's name part, else `unknown_user`, whatever is typed in the form |
| SignupPage.Validate | Front-end/src/components/signup.jsx:121-134 | the form is refused with all-fields-required exactly when a field is empty, with the mismatch message exactly when the passwords differ, with too-weak exactly when the password is shorter than six characters, and accepted otherwise |
| SignupPage.ExistingAccountMessage | Front-end/src/components/signup.jsx:139-149 | an existing account is reported as already registered, with the Google hint when Google is among its sign-in methods, else with the password hint when a password is |
| SignupPage.SignupErrorMessage | Front-end/src/components/signup.jsx:190-195 | a known Firebase error code gets its own message; any other failure reports `Signup failed:` followed by its message |
| SignupPage.SignupErrorMessageShape | Front-end/src/components/signup.jsx:190-195 | the weak-password code gives the too-weak text; known codes ignore the message; unknown codes keep different messages apart |
| SignupPage.SignupSent | Front-end/src/components/signup.jsx:156-161 | the sign-up request goes to the back end exactly when the form is valid, the email has no sign-in methods, and the account was created; it carries the email, username, new uid and the email-and-password provider |
| SignupPage.RefusedBeforeAnyCall | Front-end/src/components/signup.jsx:121-134 | an invalid form is refused with the validation message before any Firebase or back-end call |
| SignupPage.SignedUpIff | Front-end/src/components/signup.jsx:179-187 | sign-up succeeds exactly when the form is valid, the email is unused, the account is created and the back end accepts; the request sent is then the one `SignupSent` names |
| SignupPage.ExistingEmailBlocks | Front-end/src/components/signup.jsx:139-149 | an email that already has sign-in methods fails with the existing-account message and nothing is sent to the back end |
| SignupPage.BackendRefusalMessage | Front-end/src/components/signup.jsx:171-174 | a back-end refusal fails the sign-up with `Signup failed:` and the body's message, or the default text |
| SignupPage.GoogleErrorMessage | Front-end/src/components/signup.jsx:219-224 | a known Google sign-in error code gets its own message; any other failure reports `Google Sign-in failed:` followed by its message |
| SignupPage.GoogleErrorMessageShape | Front-end/src/components/signup.jsx:219-224 | a closed pop-up has its own message; the network error reads differently from the sign-up one; an uncoded failure keeps its message |
| SignupPage.SignupForm.constructor | Front-end/src/components/signup.jsx:18-26 | the form starts with empty fields, no messages, nothing loading and no user |
| SignupPage.SignupForm.OnAuthStateChanged | Front-end/src/components/signup.jsx:76-85 | the listener records the Firebase user, reports it as signed in, and syncs it with the form ignored; the form fields and messages are untouched |
| SignupPage.SignupForm.HandleSignup | Front-end/src/components/signup.jsx:109-199 | the back-end request is `SignupSent`; success clears the form, stores the token, signs the user in and goes to the music page; any other outcome shows its error and keeps the form as typed |
| SignupPage.SignupForm.HandleGoogleSignIn | Front-end/src/components/signup.jsx:202-229 | a completed pop-up syncs the Google user, shows the success message and goes to the music page; a failed one shows the Google error message and sends nothing |
| LoginPage.LoginUsername | Front-end/src/components/login.jsx:26 | the username synced at login is the display name, else the email's part before `@`, and is missing exactly when both are |
| LoginPage.LoginProvider | Front-end/src/components/login.jsx:28 | the provider synced is the first linked provider when it is non-empty, else `email_password` |
| LoginPage.ProfileImage | Front-end/src/components/login.jsx:27 | the image synced is the account's photo URL when it has one |
| LoginPage.LoginSyncRequest | Front-end/src/components/login.jsx:20-30 | a login sync carries the token as a Bearer header, the account's uid and email, the username, image and provider, and exists exactly when a username can be chosen |
| LoginPage.Sync | Front-end/src/components/login.jsx:14-43 | syncing yields the back end's `user` exactly when the token, the username and an accepting reply are all there; a refusal fails with the back end's message |
| LoginPage.SyncSent | Front-end/src/components/login.jsx:20-30 | the sync request is sent exactly when the token was obtained and a username can be chosen |
| LoginPage.ErrorText | Front-end/src/components/login.jsx:72-77 | the error shown is the failure's message, or the fallback when it is empty |
| LoginPage.LoginOutcomes | Front-end/src/components/login.jsx:45-78 | login is refused with enter-both exactly when a field is empty, succeeds with the back end's user exactly when sign-in and the sync succeed, and any failure shows a non-empty error |
| LoginPage.BackendRefusalFailsLogin | Front-end/src/components/login.jsx:32-35 | a back-end refusal fails the login with the body's message, or the sync-failed text |
| LoginPage.SyncHeaderReachesGuard | Front-end/src/components/login.jsx:20-30 | the Authorization header the login sync sends is one the bearer-token guard reads back to the same token |
| LoginPage.ProviderChainsDiffer | Front-end/src/components/login.jsx:28 | for an account whose first provider id is empty, sign-up syncs an empty provider while login syncs `email_password` |
| LoginPage.LoginForm.constructor | Front-end/src/components/login.jsx:7-11 | the form starts empty, with no messages and not loading |
| LoginPage.LoginForm.HandleLogin | Front-end/src/components/login.jsx:45-78 | success clears the form, signs the user in and goes to the music page; any other outcome shows its error and keeps the form; the sync is sent only after a successful Firebase sign-in |
| LoginPage.LoginForm.HandleGoogleSignIn | Front-end/src/components/login.jsx:81-103 | a completed pop-up sends the sync; a successful sync signs the user in and goes to the music page; a failed pop-up or sync shows its error |

## Left out

- Network, database and Firebase calls are not executed. Each awaited call is a parameter holding its outcome: a `Step`, an `Option` payload or a `Reply`. Any call that throws is a failed outcome, and a rejected `response.json()` counts the same.
- MySQL itself is not modelled. Tables are maps and sets under their declared unique and foreign keys. Column lengths, cascades and `SET NULL` are left out because the database enforces them.
- Sequelize's snake_case option keys are not modelled. The model assumes `firebase_uid` in a `where`, `profile_image` in `defaults` and `playlist_id` in `create` reach the columns they name.
- Math.random, uuid and the shuffle are not modelled. The random username suffix, the uuid file name, the random favourite id and the top-results shuffle are parameters. The shuffle is only required to be a permutation.
- Base64 decoding and the Storage upload are not modelled. The upload is a function from object path to public URL, or a failure.
- ProfileController.HandleUpdateProfile: the row returned by `update(..., {returning: true})` is read back by uid. MySQL does not honour `returning`, so the response body the real server sends is not modelled.
- ProfileController.UpdateProfileEffects: when an uploaded image is stored, only that the update succeeded is stated. The new image URL is stated by `ImageStepOf`.
- SearchBar.SearchBox.HandleFilter: requires every title to be a string. On a non-string title, `toLowerCase` throws inside a React event handler, and that case is not modelled.
- SearchPage.SearchPageState.OnCatalogOrQuery: requires every field the filters lower-case to be a string or absent. A non-string field throws inside the effect, and that case is not modelled.
- AlbumPage.AlbumClick: requires `album.Songs` to be absent or an array of objects. Otherwise `map` or property access throws; `HandleAlbumClick`, `HandleSongClick` and `HandlePlayTrackFromPlaylist` have the same requirement.
- Playback.ObjectsOf: requires a falsy value or an array of objects. This is what `|| []` followed by property access assumes.
- JSON bodies and request fields of other shapes are not modelled. A non-OK reply whose body is `null` makes `errorData.message` throw a TypeError, and that TypeError's text is what the forms then show. A sync request whose `username` or `email` is not a string throws at `trim` or `split` before the controller's `try`.
- Popular.Views: `parseInt` is not modelled. The value is the integer in `views`, or 0 when it is missing, because the column is an integer.
- Lower-casing covers ASCII letters only. Unicode case mapping and UTF-16 string lengths are not modelled.
- URL encoding is not modelled. `encodeURIComponent` and `URLSearchParams` form an exact round trip, so a search route carries its query text directly.
- `handleSearchSelect` in the navbar is modelled as `SearchSelect`, but no component of the model wires it up, because the rendered navbar never uses it.
- The player component and the catch-all route are not part of this model. Neither is queue navigation (next, previous, seek), because the shell stores only the current song.
- The anonymous and custom-token first sign-in of the authentication context is not part of this model, because it only calls Firebase.
- `localStorage` is reduced to the stored token field of the session.
- The shape of the TypeError is not modelled. A login sync for a user without email fails with that error, which is represented only by its message.
- Concurrent listener callbacks and effects racing each other are not modelled. Each handler runs to completion on the state it starts from.
- The refetch after toggling a favourite is not awaited. Its outcome is a parameter applied at once.
- The Firebase-not-initialised guard of the sign-up form is not modelled: the Firebase instances are taken to exist. The CSS injection effect is not modelled either.
- Console logging, JSX rendering and the cron schedule of the server are not part of this model.
- The CRUD controllers for songs, albums, artists, radios, playlists, favourites and search are not part of this model. Neither are the route files, the model definitions or the Firebase setup modules. They only pass requests through to the database.
- The profile page, the error boundary, the loading view and the logout component are not part of this model. They are rendering and Firebase reloads.
