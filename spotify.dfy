/**
 * The records the streaming service's API hands back, reduced to the fields the
 * client reads, and the transport the client is bound to.
 *
 * Every remote call is modelled as a total function of its arguments: a value of
 * `Transport` fixes, up front, what the service answers to every request.
 */
module Spotify {

  datatype Option<T> = None | Some(value: T)

  /** The one failure the client raises itself: taking the last id of an empty page of followed artists. */
  datatype Error = LastIdOfEmptyPage

  datatype Result<T> = Ok(value: T) | Err(error: Error)

  datatype Artist = Artist(id: string, name: string)

  datatype Track = Track(name: string, uri: string, artists: seq<Artist>)

  /** An entry of a playlist: the track it holds. */
  datatype PlaylistItem = PlaylistItem(track: Track)

  /**
   * An album or episode as the service returns it. `releaseDate` is the release
   * date already parsed to a comparable number (days, say); episodes carry no artists.
   */
  datatype RawRelease = RawRelease(uri: string, releaseDate: int, artists: seq<Artist>)

  datatype Show = Show(id: string)

  /** An entry of the account's saved shows. */
  datatype SavedShow = SavedShow(show: Show)

  /** One response of an offset-paginated endpoint: the items, the page size and the collection's size. */
  datatype Page<T> = Page(items: seq<T>, limit: int, total: int)

  /** One response of the followed-artists endpoint: the artists and the link to the next page, if any. */
  datatype CursorPage = CursorPage(items: seq<Artist>, next: Option<string>)

  /**
   * The bound remote client. Paginated endpoints take the offset (or the `after`
   * cursor) last, so that fixing the other arguments leaves a page oracle.
   */
  datatype Transport = Transport(
    playlistTracks: string -> nat -> Page<PlaylistItem>,
    track: string -> Track,
    artistAlbums: string -> string -> nat -> Page<RawRelease>,  // artist id, include_groups, offset
    showEpisodes: string -> nat -> Page<RawRelease>,
    followedArtists: Option<string> -> CursorPage,
    savedShows: nat -> Page<SavedShow>,
    albumTracks: string -> seq<Track>,
    followingArtists: seq<string> -> seq<bool>,
    album: string -> RawRelease,
    episode: string -> RawRelease
  )
}
