/**
 * The pure part of the client: the item filters, the list comprehensions that
 * turn a response into the values the client returns, and the endpoint choice
 * of `get_release`.
 */
module Items {
  import opened Spotify

  /** The catalogue's sentinel artist name for compilations. */
  const VariousArtists: string := "Various Artists"

  /** The release groups requested from the artist-albums endpoint. */
  const DefaultReleasesGroups: string := "album,single,compilation,appears_on"

  /**
   * `skip_release`: a release is left out when some credited artist is named
   * exactly "Various Artists", when it is older than the cutoff, or when it is
   * dated after the current moment.
   */
  function SkipRelease(release: RawRelease, newerThan: int, now: int): (skip: bool)
    ensures skip <==>
      (exists i :: 0 <= i < |release.artists| && release.artists[i].name == VariousArtists)
      || release.releaseDate < newerThan
      || now < release.releaseDate
  {
    var names := set artist | artist in release.artists :: artist.name;
    VariousArtists in names || release.releaseDate < newerThan || release.releaseDate > now
  }

  /** `skip_episode`: the date window of `SkipRelease` without the artist test. */
  function SkipEpisode(episode: RawRelease, newerThan: int, now: int): (skip: bool)
    ensures !skip <==> newerThan <= episode.releaseDate <= now
    ensures skip ==> SkipRelease(episode, newerThan, now)
  {
    episode.releaseDate < newerThan || episode.releaseDate > now
  }

  /** The cutoff the release and episode pages use: `newer_than`, or the current moment when it is absent. */
  function Cutoff(newerThan: Option<int>, now: int): (cutoff: int)
    ensures newerThan.None? ==> cutoff == now
    ensures forall date :: newerThan == Some(date) ==> cutoff == date
  {
    match newerThan
    case Some(date) => date
    case None => now
  }

  /** The comprehension of `_get_artist_releases`: the releases of a page that `SkipRelease` keeps, in order. */
  function KeptReleases(releases: seq<RawRelease>, newerThan: int, now: int): (kept: seq<RawRelease>)
    ensures |kept| <= |releases|
    ensures forall r :: r in kept <==> r in releases && !SkipRelease(r, newerThan, now)
  {
    if releases == [] then []
    else
      var head := if SkipRelease(releases[0], newerThan, now) then [] else [releases[0]];
      head + KeptReleases(releases[1..], newerThan, now)
  }

  /** The comprehension of `_get_show_episodes`: the episodes of a page that `SkipEpisode` keeps, in order. */
  function KeptEpisodes(episodes: seq<RawRelease>, newerThan: int, now: int): (kept: seq<RawRelease>)
    ensures |kept| <= |episodes|
    ensures forall e :: e in kept <==> e in episodes && !SkipEpisode(e, newerThan, now)
  {
    if episodes == [] then []
    else
      var head := if SkipEpisode(episodes[0], newerThan, now) then [] else [episodes[0]];
      head + KeptEpisodes(episodes[1..], newerThan, now)
  }

  /** Filtering page by page and filtering the concatenation agree. */
  lemma {:induction false} KeptReleasesAppend(a: seq<RawRelease>, b: seq<RawRelease>, newerThan: int, now: int)
    ensures KeptReleases(a + b, newerThan, now) == KeptReleases(a, newerThan, now) + KeptReleases(b, newerThan, now)
  {
    if a == [] {
      assert a + b == b;
    } else {
      assert (a + b)[1..] == a[1..] + b;
      KeptReleasesAppend(a[1..], b, newerThan, now);
    }
  }

  lemma {:induction false} KeptEpisodesAppend(a: seq<RawRelease>, b: seq<RawRelease>, newerThan: int, now: int)
    ensures KeptEpisodes(a + b, newerThan, now) == KeptEpisodes(a, newerThan, now) + KeptEpisodes(b, newerThan, now)
  {
    if a == [] {
      assert a + b == b;
    } else {
      assert (a + b)[1..] == a[1..] + b;
      KeptEpisodesAppend(a[1..], b, newerThan, now);
    }
  }

  /** `[item['id'] for item in artists]`, as in `_get_artists_ids` and `favorite_artist_song`. */
  function ArtistIds(artists: seq<Artist>): (ids: seq<string>)
    ensures |ids| == |artists|
    ensures forall i :: 0 <= i < |artists| ==> ids[i] == artists[i].id
  {
    if artists == [] then [] else [artists[0].id] + ArtistIds(artists[1..])
  }

  /** `[item['show']['id'] for item in items]`, as in `_get_favorite_shows`. */
  function ShowIds(saved: seq<SavedShow>): (ids: seq<string>)
    ensures |ids| == |saved|
    ensures forall i :: 0 <= i < |saved| ==> ids[i] == saved[i].show.id
  {
    if saved == [] then [] else [saved[0].show.id] + ShowIds(saved[1..])
  }

  lemma {:induction false} ShowIdsAppend(a: seq<SavedShow>, b: seq<SavedShow>)
    ensures ShowIds(a + b) == ShowIds(a) + ShowIds(b)
  {
    if a == [] {
      assert a + b == b;
    } else {
      assert (a + b)[1..] == a[1..] + b;
      ShowIdsAppend(a[1..], b);
    }
  }

  /** `[song['uri'] for song in album_songs]`, as in `get_album_songs`. */
  function TrackUris(tracks: seq<Track>): (uris: seq<string>)
    ensures |uris| == |tracks|
    ensures forall i :: 0 <= i < |tracks| ==> uris[i] == tracks[i].uri
  {
    if tracks == [] then [] else [tracks[0].uri] + TrackUris(tracks[1..])
  }

  /** Python's `any` over a list of booleans. */
  function Any(flags: seq<bool>): (r: bool)
    ensures r <==> exists i :: 0 <= i < |flags| && flags[i]
  {
    if flags == [] then false else flags[0] || Any(flags[1..])
  }

  /** `sub` occurs in `s` starting at position `i`. */
  predicate OccursAt(s: string, sub: string, i: int)
  {
    0 <= i <= |s| - |sub| && s[i..i + |sub|] == sub
  }

  /** Python's `sub in s` on strings: `sub` occurs in `s` as a contiguous substring. */
  function Contains(s: string, sub: string): (r: bool)
    ensures r <==> exists i :: OccursAt(s, sub, i)
    decreases |s|
  {
    if |s| < |sub| then false
    else if s[..|sub|] == sub then assert OccursAt(s, sub, 0); true
    else
      var r := Contains(s[1..], sub);
      assert r ==> exists i :: OccursAt(s, sub, i) by {
        if r {
          var i :| OccursAt(s[1..], sub, i);
          assert s[i + 1..i + 1 + |sub|] == s[1..][i..i + |sub|];
          assert OccursAt(s, sub, i + 1);
        }
      }
      assert (exists i :: OccursAt(s, sub, i)) ==> r by {
        if exists i :: OccursAt(s, sub, i) {
          var i :| OccursAt(s, sub, i);
          assert i != 0;
          assert s[1..][i - 1..i - 1 + |sub|] == s[i..i + |sub|];
          assert OccursAt(s[1..], sub, i - 1);
        }
      }
      r
  }

  datatype Endpoint = AlbumEndpoint | EpisodeEndpoint

  /** `get_release`'s choice: the episode endpoint iff the URI contains "episode", the album endpoint otherwise. */
  function ReleaseEndpoint(uri: string): (endpoint: Endpoint)
    ensures endpoint == EpisodeEndpoint <==> exists i :: OccursAt(uri, "episode", i)
    ensures endpoint == AlbumEndpoint <==> forall i :: !OccursAt(uri, "episode", i)
  {
    if Contains(uri, "episode") then EpisodeEndpoint else AlbumEndpoint
  }

  /** An episode URI goes to the episode endpoint and an album URI to the album endpoint. */
  lemma ReleaseEndpointExamples()
    ensures ReleaseEndpoint("spotify:episode:123") == EpisodeEndpoint
    ensures ReleaseEndpoint("spotify:album:123") == AlbumEndpoint
  {
    assert OccursAt("spotify:episode:123", "episode", 8);
    var album := "spotify:album:123";
    forall i | 0 <= i <= |album| - 7 ensures !OccursAt(album, "episode", i) {
      assert album[i] != 'e';
      assert album[i..i + 7][0] == album[i];
    }
  }
}
