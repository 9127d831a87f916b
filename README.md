# Paginated Spotify client wrapper, in Dafny

This project models `GetSpotipyClient`, the wrapper that the spotifications
service puts around its Spotify API client (`src/clients/spotipy_clients/get.py`).
The wrapper hides the service's pagination from the rest of the program. Its
accessors are:

- playlist duplicates, artist releases, show episodes and saved shows, which use
  offset pagination;
- followed artists, which use cursor pagination;
- a few single-request helpers.

The artist-release and show-episode accessors also filter items by date and by
the "Various Artists" credit.

The remote client is replaced by a `Transport` value. It holds one total
function per endpoint, so it fixes what the service answers to every request.
The wall clock becomes a `now` parameter. The `SPOTIFICATIONS_DEBUG` environment
switch becomes the `debug` field of the client object. Dates are integers,
already parsed.

Files:

- `spotify.dfy` (module `Spotify`): the records the API returns, the page types
  and the transport.
- `items.dfy` (module `Items`): `skip_release`, `skip_episode`, the list
  comprehensions, `any`, the substring test and the endpoint choice of
  `get_release`.
- `pagination.dfy` (module `Pagination`): the specification of the two pagination
  loops as functions of a page oracle.
  - `OffsetsFrom` gives the offsets requested and `Gather` the items accumulated.
  - `IsRun` is an independent, non-recursive statement of the offset loop's rule.
  - `CursorRequests` and `FollowedIds` do the same job for the cursor loop, and
    `IsCursorChain` is its non-recursive rule.
- `duplicates.dfy` (module `Duplicates`): the name → URI-list grouping of
  `get_playlist_duplicates`.
- `client.dfy` (module `Client`): the class `GetSpotipyClient`. Its methods run
  the loops and are proved against the functions above. A ghost `requested`
  out-parameter records the offsets or cursors each loop asks for.

Termination. The source never checks that a page's `limit` is positive or that
its `total` stays bounded, and a cursor service could return `next` links forever.
Each paginated method therefore takes a ghost argument:

- an offset loop takes `bound` and requires `Bounded`: every page has
  `limit > 0` and `total <= bound`;
- the cursor loop takes `fuel` and requires `CursorEnds`: the cursor chain stops
  or fails within `fuel` requests.

Only the loops that can go round more than once need these. With the debug
switch on, the artist-release, show-episode, followed-artist and saved-show
methods make one request whatever the page says, and they require nothing.
`OffsetsAreTheRun` and `CursorFuelIrrelevant` show that these ghost arguments do
not change what the specification says.

The ghost `requested` out-parameters are written by the methods themselves, one
entry per page read, next to the one call to the transport. What their
postconditions prove is that this log equals `OffsetsFrom` or `CursorRequests`.
That the transport is called once per logged entry is seen by reading the loop
body; it is not a proved fact about the transport.

Two behaviours of the code that are easy to miss:

- With no `newer_than`, the cutoff is the current time, so only items with
  `cutoff <= date <= now` pass, that is items dated exactly now. The methods'
  `newerThan.None?` postconditions state this.
- `release['release_date']` is read before the `release is None` test, so that
  test never skips an item; an absent item raises instead. The model has no
  absent items.

## Model

| member | source | states |
|---|---|---|
| Client.GetSpotipyClient.GetPlaylistDuplicates | src/clients/spotipy_clients/get.py:19-32 | requests exactly the offset run from 0, never consulting the debug flag; a name is a key iff more than one entry across all fetched pages has that name, and its value is those entries' URIs in playlist order |
| Client.GetSpotipyClient.GroupPage | src/clients/spotipy_clients/get.py:25-26 | `setdefault(name, []).append(uri)` over one page keeps the map equal to the grouping of every entry seen so far |
| Client.GetSpotipyClient.GetTrack | src/clients/spotipy_clients/get.py:34-35 | returns the transport's track record unchanged |
| Client.GetSpotipyClient.CollectOffsetPages | src/clients/spotipy_clients/get.py:46-63 | with the debug flag, one request at offset 0 and that page's items, whatever its `limit` and `total`; without it, the requests are exactly the offset run from 0 and the result is every fetched page's items concatenated in request order |
| Client.GetSpotipyClient.GetArtistReleases | src/clients/spotipy_clients/get.py:44-63 | the releases of all fetched pages (only the first with the debug flag) that `skip_release` keeps, in order; each kept release has no "Various Artists" credit and a date in [cutoff, now]; with no `newer_than` every kept release is dated exactly now |
| Client.GetSpotipyClient.GetShowEpisodes | src/clients/spotipy_clients/get.py:65-84 | the episodes of all fetched pages (only the first with the debug flag) that `skip_episode` keeps, in order; each has a date in [cutoff, now]; with no `newer_than` each is dated exactly now |
| Client.GetSpotipyClient.GetArtistsIds | src/clients/spotipy_clients/get.py:86-104 | with the debug flag, one request with no cursor and that page's ids, whatever its `next` link; without it, the cursors requested and the result are those of `CursorRequests` and `FollowedIds`, including the `ids[-1]` failure |
| Client.GetSpotipyClient.GetFavoriteShows | src/clients/spotipy_clients/get.py:106-123 | the show ids of all fetched pages (only the first with the debug flag), in order, requested at exactly the offset run from 0 |
| Client.GetSpotipyClient.GetAlbumSongs | src/clients/spotipy_clients/get.py:125-129 | one URI per album track, the i-th being the i-th track's URI |
| Client.GetSpotipyClient.FavoriteArtistSong | src/clients/spotipy_clients/get.py:131-135 | true iff some flag returned for the track's artist ids is true |
| Client.GetSpotipyClient.GetRelease | src/clients/spotipy_clients/get.py:192-197 | the episode endpoint's record when "episode" occurs in the URI, the album endpoint's record otherwise |
| Items.SkipRelease | src/clients/spotipy_clients/get.py:177-183 | true iff some artist is named exactly "Various Artists", or the date is before the cutoff, or the date is after now |
| Items.SkipEpisode | src/clients/spotipy_clients/get.py:185-190 | false iff cutoff <= date <= now; it skips only items that `skip_release` skips too |
| Items.KeptReleases | src/clients/spotipy_clients/get.py:151-155 | a release is kept iff it is on the page and `skip_release` does not reject it; never longer than the page |
| Items.KeptEpisodes | src/clients/spotipy_clients/get.py:171-175 | an episode is kept iff it is on the page and `skip_episode` does not reject it; never longer than the page |
| Items.KeptReleasesAppend | src/clients/spotipy_clients/get.py:49-53 | filtering page by page and then concatenating equals filtering the concatenation |
| Items.KeptEpisodesAppend | src/clients/spotipy_clients/get.py:70-74 | filtering page by page and then concatenating equals filtering the concatenation |
| Items.ArtistIds | src/clients/spotipy_clients/get.py:139 | one id per artist, in order |
| Items.ShowIds | src/clients/spotipy_clients/get.py:159 | one show id per saved-show item, in order |
| Items.ShowIdsAppend | src/clients/spotipy_clients/get.py:111-113 | extracting ids page by page and then concatenating equals extracting from the concatenation |
| Items.TrackUris | src/clients/spotipy_clients/get.py:129 | one URI per track, in order |
| Items.Any | src/clients/spotipy_clients/get.py:135 | true iff some element is true |
| Items.Contains | src/clients/spotipy_clients/get.py:194 | true iff the pattern occurs at some position of the string |
| Items.ReleaseEndpoint | src/clients/spotipy_clients/get.py:193-195 | the episode endpoint iff "episode" occurs in the URI, the album endpoint iff it occurs nowhere |
| Items.Cutoff | src/clients/spotipy_clients/get.py:144-145 | the given `newer_than` when there is one, the current moment when it is absent (the same lines at 164-165 for episodes) |
| Items.ReleaseEndpointExamples | src/clients/spotipy_clients/get.py:192-197 | "spotify:episode:123" goes to the episode endpoint and "spotify:album:123" to the album endpoint |
| Pagination.OffsetsFromIsRun | src/clients/spotipy_clients/get.py:58-61 | the offsets the loop requests obey its rule: start at 0, advance by `limit` while `offset < total`, stop on the first request with `total <= offset` |
| Pagination.RunIsOffsetsFrom | src/clients/spotipy_clients/get.py:79-82 | any request sequence obeying that rule is the one the loop makes |
| Pagination.OffsetsAreTheRun | src/clients/spotipy_clients/get.py:118-121 | a request sequence obeys the rule iff it is the loop's requests, whatever bound proved termination |
| Pagination.OffsetsIncrease | src/clients/spotipy_clients/get.py:28-30 | the requests begin at the start offset and strictly increase |
| Pagination.UniformOffsetsFrom | src/clients/spotipy_clients/get.py:118-121 | with a constant limit and total, the i-th request is `start + i * limit`; all but the last are below the total and the last is at or above it |
| Pagination.UniformOffsets | src/clients/spotipy_clients/get.py:58-61 | with a constant positive limit, the requests are 0, limit, 2·limit, …; the last one is the least multiple of limit at or above the total; a total of 0 or less costs one request |
| Pagination.ExactMultipleCostsOneMoreRequest | src/clients/spotipy_clients/get.py:79-82 | a total of exactly `pages * limit` takes `pages + 1` requests, one more than there are full pages |
| Pagination.OffsetLoopStep | src/clients/spotipy_clients/get.py:110-121 | after one request the loop has either finished the run and accumulated everything, or still has the run from `offset + limit` ahead |
| Pagination.GatherAppend | src/clients/spotipy_clients/get.py:53 | the items of two request sequences in a row are the items of the first followed by those of the second |
| Pagination.GatherKeepsEveryPage | src/clients/spotipy_clients/get.py:113 | each fetched page's items appear whole in the result, after the pages requested before it and before those requested after it |
| Pagination.MapPagesOffsets | src/clients/spotipy_clients/get.py:151-155 | filtering a page's items keeps its limit and total, so the loop requests the same offsets |
| Pagination.MapPagesGather | src/clients/spotipy_clients/get.py:171-175 | for a per-page transformation that distributes over concatenation, transforming page by page equals transforming everything gathered |
| Pagination.HasNext | src/clients/spotipy_clients/get.py:99 | Python truthiness of `next`: false exactly for a missing link and for the empty string |
| Pagination.LastId | src/clients/spotipy_clients/get.py:102 | `ids[-1]` on a page with artists: the id of the page's last artist |
| Pagination.CursorLoopStep | src/clients/spotipy_clients/get.py:92-102 | after one request the loop has finished with the page's ids, or failed on `ids[-1]` of an empty page with a `next` link, or still has the chain from the page's last id ahead of it with those ids collected |
| Pagination.CursorChainIsRequests | src/clients/spotipy_clients/get.py:90-102 | any request sequence that obeys the cursor rule is the one the loop makes |
| Pagination.CursorRequestsAreTheChain | src/clients/spotipy_clients/get.py:90-102 | a request sequence obeys the cursor rule iff it is the loop's requests |
| Pagination.CursorRequestsShape | src/clients/spotipy_clients/get.py:90-102 | the first request carries the starting cursor (none, for the client); each later one is after the last id of the page before, which had a `next` link; the last page has no `next` link or no ids |
| Pagination.FollowedIdsOutcome | src/clients/spotipy_clients/get.py:94-102 | the loop fails iff its last page has a `next` link (and therefore no ids); otherwise it returns every requested page's ids in request order |
| Pagination.CursorFuelIrrelevant | src/clients/spotipy_clients/get.py:91-100 | any two sufficient fuels give the same requests and the same result |
| Pagination.FollowedIdsExample | src/clients/spotipy_clients/get.py:137-139 | pages ["a1","a2"] (with a next link) and ["a3"] (without) give ["a1","a2","a3"] in two requests, the second after "a2" |
| Duplicates.UrisNamed | src/clients/spotipy_clients/get.py:25-26 | a URI is listed under a name iff some entry with that name has that URI; the list is never longer than the entries |
| Duplicates.UrisNamedSnoc | src/clients/spotipy_clients/get.py:26 | appending one entry extends only its own name's list, by its URI at the end |
| Duplicates.AppendUriIsSetdefault | src/clients/spotipy_clients/get.py:26 | `AppendUri` is `setdefault(name, []).append(uri)`: `name` becomes a key if it was not one, its list gains `uri` at the end (or is `[uri]` when new), and every other entry is unchanged |
| Duplicates.GroupedAppend | src/clients/spotipy_clients/get.py:26 | one `setdefault(...).append(...)` keeps the map equal to the grouping of the entries seen |
| Duplicates.RepeatedOnly | src/clients/spotipy_clients/get.py:32 | keeps exactly the entries whose list has more than one URI, with their lists unchanged |
| Duplicates.RepeatedOnlyOfGrouped | src/clients/spotipy_clients/get.py:32 | applied to the grouping, it keeps exactly the names with more than one URI, each with all of its URIs |
| Duplicates.RepeatedIffTwoEntries | src/clients/spotipy_clients/get.py:25-32 | a name has more than one URI iff two distinct entries have that name |

## Left out

- Transport calls (`playlist_tracks`, `artist_albums`, `show_episodes`, `current_user_followed_artists`, `current_user_saved_shows`, `album_tracks`, `track`, `album`, `episode`, `current_user_following_artists`): modelled as the total functions of `Transport`. Network failures, authentication and not-found errors, which the wrapper only lets through, are not modelled.
- `Release.from_spotipy` and `Release.parse_release_date` live in `src.models`, which is not part of this model. The artist-release and show-episode methods return the raw records that the conversion would be applied to, in order. Dates are already-parsed integers.
- `datetime.now()`: the source reads the clock once per page when defaulting `newer_than`, and again for every item in `skip_release`/`skip_episode`. The model uses one `now` for all of them. With a moving clock, an item passes when `cutoff <= date <= later reading`, not only when it is dated exactly now.
- `os.environ.get('SPOTIFICATIONS_DEBUG')` is read afresh in every loop; the model fixes it as the `debug` field.
- Logging, the `breakpoint()` call in `get_playlist_duplicates` and the `sys.path` setup have no behaviour to model.
- Python dicts keep insertion order; Dafny maps do not. `GetPlaylistDuplicates` does not model the key order of the returned dict. Each key's URI list is ordered.
- `None` entries (for example a playlist item whose `track` is null) would raise in the source. The model's records are never absent.
- Client.GetSpotipyClient.GetPlaylistDuplicates: requires a positive `limit` and a `total` of at most `bound` on every page the oracle can return, which the source does not check; without them the source can loop forever. This also constrains pages at offsets the loop never requests.
- Client.GetSpotipyClient.CollectOffsetPages: with the debug switch off, requires a positive `limit` and a `total` of at most `bound` on every page the oracle can return, which the source does not check; without them the source can loop forever. This also constrains pages at offsets the loop never requests.
- Client.GetSpotipyClient.GetArtistReleases: with the debug switch off, requires a positive `limit` and a `total` of at most `bound` on every page the oracle can return, which the source does not check; without them the source can loop forever. This also constrains pages at offsets the loop never requests.
- Client.GetSpotipyClient.GetShowEpisodes: with the debug switch off, requires a positive `limit` and a `total` of at most `bound` on every page the oracle can return, which the source does not check; without them the source can loop forever. This also constrains pages at offsets the loop never requests.
- Client.GetSpotipyClient.GetFavoriteShows: with the debug switch off, requires a positive `limit` and a `total` of at most `bound` on every page the oracle can return, which the source does not check; without them the source can loop forever. This also constrains pages at offsets the loop never requests.
- Client.GetSpotipyClient.GetArtistsIds: with the debug switch off, requires that the cursor chain ends within some number of requests; a service that always returns a `next` link would keep the source looping.
