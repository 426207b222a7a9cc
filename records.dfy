/** The rows of the relational store that the backend tasks read, with the
    columns they use. Timestamps are integer seconds since the epoch. */
module Records {
  import opened Wrappers

  /** A row of 'Tracked Playlists'. */
  datatype TrackedPlaylistRow = TrackedPlaylistRow(
    id: int,
    userId: string,
    playlistId: string,
    playlistName: string,
    removedPlaylistId: Option<string>,
    removedPlaylistName: Option<string>)

  /** A row of 'User Settings', with the mirror-removal flag that the expiry
      task reads as an input of its own. */
  datatype UserSettingsRow = UserSettingsRow(
    playlistPersistence: string,
    removeFromPlaylist: bool)

  /** A row of 'Library Snapshots': the storage key of the snapshot object. */
  datatype SnapshotRow = SnapshotRow(snapshotId: Option<string>)

  /** A row of 'Deleted Songs'. */
  datatype DeletedSongRow = DeletedSongRow(
    id: int,
    userId: string,
    playlistId: int,
    trackId: string,
    removedAt: int,
    active: bool)
}
