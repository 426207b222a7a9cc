/** The parts of the streaming service's Web API objects that the core reads. */
module SpotifyApi {
  import opened Wrappers

  /** An image object; `width` is null or absent for some images. */
  datatype Image = Image(url: string, width: Option<int>)

  datatype Artist = Artist(name: string)

  datatype Album = Album(name: string, images: Option<seq<Image>>)

  datatype Track = Track(id: string, name: string, artists: seq<Artist>, album: Album)

  /** An element of a playlist-tracks page or of a saved-tracks page. */
  datatype TrackItem = TrackItem(track: Track, addedAt: string)

  /** A simplified playlist object as listed by the current user's playlists. */
  datatype PlaylistSummary = PlaylistSummary(
    id: string,
    name: string,
    ownerId: string,
    images: Option<seq<Image>>)
}
