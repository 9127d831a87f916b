/**
 * `GetSpotipyClient`: the wrapper around the bound remote client. Each paginated
 * accessor drives a fetch-accumulate-continue loop and is proved against the
 * specification functions of `Pagination`; the ghost `requested` out-parameters
 * record the offsets or cursors the loop asks for, in order.
 */
module Client {
  import opened Spotify
  import opened Items
  import opened Pagination
  import opened Duplicates

  class GetSpotipyClient {
    /** The bound remote client. */
    const client: Transport
    /** The `SPOTIFICATIONS_DEBUG` switch: stop the artist, show, followed-artist and saved-show loops after one page. */
    const debug: bool

    constructor (client: Transport, debug: bool)
      ensures this.client == client && this.debug == debug
    {
      this.client := client;
      this.debug := debug;
    }

    /**
     * Groups every entry of every page by track name and keeps the names that
     * occur more than once, each with its URIs in playlist order. The debug
     * switch is not consulted.
     */
    method GetPlaylistDuplicates(playlistId: string, ghost bound: int)
      returns (duplicates: map<string, seq<string>>, ghost requested: seq<nat>)
      requires Bounded(client.playlistTracks(playlistId), bound)
      ensures requested == OffsetsFrom(client.playlistTracks(playlistId), bound, 0)
      ensures var songs := Collected(client.playlistTracks(playlistId), bound);
        forall name :: (name in duplicates <==> |UrisNamed(songs, name)| > 1)
                       && (name in duplicates ==> duplicates[name] == UrisNamed(songs, name))
    {
      var fetch := client.playlistTracks(playlistId);
      var groups: map<string, seq<string>> := map[];
      var offset: nat := 0;
      ghost var seen: seq<PlaylistItem> := [];
      requested := [];
      while true
        invariant requested + OffsetsFrom(fetch, bound, offset) == OffsetsFrom(fetch, bound, 0)
        invariant seen + Gather(fetch, OffsetsFrom(fetch, bound, offset)) == Collected(fetch, bound)
        invariant Grouped(groups, seen)
        decreases bound - offset
      {
        var page := fetch(offset);
        groups := GroupPage(groups, seen, page.items);
        OffsetLoopStep(fetch, bound, offset, requested, seen);
        requested := requested + [offset];
        seen := seen + page.items;
        if page.total <= offset {
          break;
        }
        offset := offset + page.limit;
      }
      RepeatedOnlyOfGrouped(groups, seen);
      duplicates := RepeatedOnly(groups);
    }

    /** The inner loop of `get_playlist_duplicates`: `setdefault(name, []).append(uri)` for each entry of one page. */
    static method GroupPage(groups: map<string, seq<string>>, ghost seen: seq<PlaylistItem>, songs: seq<PlaylistItem>)
      returns (grouped: map<string, seq<string>>)
      requires Grouped(groups, seen)
      ensures Grouped(grouped, seen + songs)
    {
      grouped := groups;
      assert seen + songs[..0] == seen;
      for i := 0 to |songs|
        invariant Grouped(grouped, seen + songs[..i])
      {
        GroupedAppend(grouped, seen + songs[..i], songs[i]);
        grouped := AppendUri(grouped, songs[i].track.name, songs[i].track.uri);
        assert seen + songs[..i + 1] == seen + songs[..i] + [songs[i]];
      }
      assert songs[..|songs|] == songs;
    }

    /** `get_track`: the transport's record, unchanged. */
    method GetTrack(trackId: string) returns (track: Track)
      ensures track == client.track(trackId)
    {
      track := client.track(trackId);
    }

    /**
     * The offset loop shared by the artist-release, show-episode and saved-show
     * accessors: request offset 0, append the page, stop on the debug switch or
     * when `total <= offset`, otherwise advance by the page's `limit`.
     */
    method CollectOffsetPages<T>(fetch: nat -> Page<T>, ghost bound: int)
      returns (items: seq<T>, ghost requested: seq<nat>)
      requires !debug ==> Bounded(fetch, bound)
      ensures debug ==> items == fetch(0).items
      ensures !debug ==> items == Collected(fetch, bound)
      ensures requested == if debug then [0] else OffsetsFrom(fetch, bound, 0)
    {
      items := [];
      requested := [];
      var offset: nat := 0;
      while true
        invariant debug ==> offset == 0 && items == [] && requested == []
        invariant !debug ==> requested + OffsetsFrom(fetch, bound, offset) == OffsetsFrom(fetch, bound, 0)
        invariant !debug ==> items + Gather(fetch, OffsetsFrom(fetch, bound, offset)) == Collected(fetch, bound)
        decreases bound - offset
      {
        var page := fetch(offset);
        if !debug {
          OffsetLoopStep(fetch, bound, offset, requested, items);
        }
        requested := requested + [offset];
        items := items + page.items;
        if debug {
          break;
        }
        if page.total <= offset {
          break;
        }
        offset := offset + page.limit;
      }
    }

    /**
     * `get_artist_releases`: the artist's albums, singles, compilations and
     * appearances that `SkipRelease` keeps, page after page, in order.
     */
    method GetArtistReleases(artistId: string, newerThan: Option<int>, now: int, ghost bound: int)
      returns (releases: seq<RawRelease>, ghost requested: seq<nat>)
      requires !debug ==> Bounded(client.artistAlbums(artistId)(DefaultReleasesGroups), bound)
      ensures var albums := client.artistAlbums(artistId)(DefaultReleasesGroups);
        var cutoff := Cutoff(newerThan, now);
        && (debug ==> releases == KeptReleases(albums(0).items, cutoff, now))
        && (!debug ==> releases == KeptReleases(Collected(albums, bound), cutoff, now))
      ensures requested == if debug then [0] else OffsetsFrom(client.artistAlbums(artistId)(DefaultReleasesGroups), bound, 0)
      ensures forall r :: r in releases ==> !SkipRelease(r, Cutoff(newerThan, now), now)
      ensures newerThan.None? ==> forall r :: r in releases ==> r.releaseDate == now
    {
      var albums := client.artistAlbums(artistId)(DefaultReleasesGroups);
      var cutoff := Cutoff(newerThan, now);
      var keep := (page: seq<RawRelease>) => KeptReleases(page, cutoff, now);
      forall a, b ensures keep(a + b) == keep(a) + keep(b) {
        KeptReleasesAppend(a, b, cutoff, now);
      }
      if !debug {
        MapPagesOffsets(albums, keep, bound, 0);
        MapPagesGather(albums, keep, OffsetsFrom(albums, bound, 0));
      }
      releases, requested := CollectOffsetPages(MapPages(albums, keep), bound);
    }

    /** `get_show_episodes`: the show's episodes that `SkipEpisode` keeps, page after page, in order. */
    method GetShowEpisodes(showId: string, newerThan: Option<int>, now: int, ghost bound: int)
      returns (episodes: seq<RawRelease>, ghost requested: seq<nat>)
      requires !debug ==> Bounded(client.showEpisodes(showId), bound)
      ensures var pages := client.showEpisodes(showId);
        var cutoff := Cutoff(newerThan, now);
        && (debug ==> episodes == KeptEpisodes(pages(0).items, cutoff, now))
        && (!debug ==> episodes == KeptEpisodes(Collected(pages, bound), cutoff, now))
      ensures requested == if debug then [0] else OffsetsFrom(client.showEpisodes(showId), bound, 0)
      ensures forall e :: e in episodes ==> Cutoff(newerThan, now) <= e.releaseDate <= now
      ensures newerThan.None? ==> forall e :: e in episodes ==> e.releaseDate == now
    {
      var pages := client.showEpisodes(showId);
      var cutoff := Cutoff(newerThan, now);
      var keep := (page: seq<RawRelease>) => KeptEpisodes(page, cutoff, now);
      forall a, b ensures keep(a + b) == keep(a) + keep(b) {
        KeptEpisodesAppend(a, b, cutoff, now);
      }
      if !debug {
        MapPagesOffsets(pages, keep, bound, 0);
        MapPagesGather(pages, keep, OffsetsFrom(pages, bound, 0));
      }
      episodes, requested := CollectOffsetPages(MapPages(pages, keep), bound);
    }

    /** `get_favorite_shows`: the ids of the account's saved shows, page after page, in order. */
    method GetFavoriteShows(ghost bound: int) returns (ids: seq<string>, ghost requested: seq<nat>)
      requires !debug ==> Bounded(client.savedShows, bound)
      ensures debug ==> ids == ShowIds(client.savedShows(0).items)
      ensures !debug ==> ids == ShowIds(Collected(client.savedShows, bound))
      ensures requested == if debug then [0] else OffsetsFrom(client.savedShows, bound, 0)
    {
      var pages := client.savedShows;
      var keep := (page: seq<SavedShow>) => ShowIds(page);
      forall a, b ensures keep(a + b) == keep(a) + keep(b) {
        ShowIdsAppend(a, b);
      }
      if !debug {
        MapPagesOffsets(pages, keep, bound, 0);
        MapPagesGather(pages, keep, OffsetsFrom(pages, bound, 0));
      }
      ids, requested := CollectOffsetPages(MapPages(pages, keep), bound);
    }

    /**
     * `get_artists_ids`: the ids of the followed artists, asking first with no
     * cursor and then after the last id received, until a page has no `next`
     * link. A page with a `next` link and no artists fails on `ids[-1]`.
     */
    method GetArtistsIds(ghost fuel: nat) returns (ids: Result<seq<string>>, ghost requested: seq<Option<string>>)
      requires !debug ==> CursorEnds(client.followedArtists, None, fuel)
      ensures debug ==> ids == Ok(ArtistIds(client.followedArtists(None).items))
      ensures !debug ==> ids == FollowedIds(client.followedArtists, None, fuel)
      ensures requested == if debug then [None] else CursorRequests(client.followedArtists, None, fuel)
    {
      var fetch := client.followedArtists;
      var followed: seq<string> := [];
      var after: Option<string> := None;
      ghost var left := fuel;
      requested := [];
      if !debug {
        PrependEmpty(FollowedIds(fetch, None, fuel));
      }
      while true
        invariant debug ==> after == None && followed == [] && requested == []
        invariant !debug ==> CursorEnds(fetch, after, left)
        invariant !debug ==> requested + CursorRequests(fetch, after, left) == CursorRequests(fetch, None, fuel)
        invariant !debug ==> Prepend(followed, FollowedIds(fetch, after, left)) == FollowedIds(fetch, None, fuel)
        decreases left
      {
        var page := fetch(after);
        var pageIds := ArtistIds(page.items);
        if !debug {
          CursorLoopStep(fetch, None, fuel, after, left, requested, followed);
        }
        requested := requested + [after];
        followed := followed + pageIds;
        if debug {
          assert followed == pageIds;
          break;
        }
        if !HasNext(page) {
          break;
        }
        if pageIds == [] {
          ids := Err(LastIdOfEmptyPage);
          return;
        }
        after := Some(pageIds[|pageIds| - 1]);
        left := left - 1;
      }
      ids := Ok(followed);
    }

    /** `get_album_songs`: the URIs of the album's tracks, in order. */
    method GetAlbumSongs(albumId: string) returns (uris: seq<string>)
      ensures |uris| == |client.albumTracks(albumId)|
      ensures forall i :: 0 <= i < |uris| ==> uris[i] == client.albumTracks(albumId)[i].uri
    {
      uris := TrackUris(client.albumTracks(albumId));
    }

    /** `favorite_artist_song`: some artist credited on the track is one the account follows. */
    method FavoriteArtistSong(songId: string) returns (favorite: bool)
      ensures var flags := client.followingArtists(ArtistIds(client.track(songId).artists));
        favorite <==> exists i :: 0 <= i < |flags| && flags[i]
    {
      var song := client.track(songId);
      var artistsIds := ArtistIds(song.artists);
      favorite := Any(client.followingArtists(artistsIds));
    }

    /** `get_release`: resolved by the episode endpoint when the URI contains "episode", by the album endpoint otherwise. */
    method GetRelease(releaseUri: string) returns (release: RawRelease)
      ensures (exists i :: OccursAt(releaseUri, "episode", i)) ==> release == client.episode(releaseUri)
      ensures (forall i :: !OccursAt(releaseUri, "episode", i)) ==> release == client.album(releaseUri)
    {
      var resolve := client.album;
      if ReleaseEndpoint(releaseUri) == EpisodeEndpoint {
        resolve := client.episode;
      }
      release := resolve(releaseUri);
    }
  }
}
