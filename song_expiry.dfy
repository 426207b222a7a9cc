/** The expiry task: deleted songs older than the user's persistence window
    are marked inactive in 'Deleted Songs' and, when the user asked for it,
    taken out of the mirror playlist. The table is an object whose rows the
    task updates; the other queries and the upstream lookups are inputs. */
module SongExpiry {
  import opened Wrappers
  import opened Sequences
  import opened Strings
  import opened Records
  import opened SpotifyService

  const SECONDS_PER_DAY: int := 86400

  /** The persistence settings that expire songs, with their window in days;
      "forever" and anything else not listed expire nothing. */
  const PERSISTENCE_PERIODS: map<string, nat> :=
    map["30 days" := 30, "90 days" := 90, "180 days" := 180, "1 year" := 365]

  /** The windows of the closed set of settings. */
  lemma PersistencePeriods()
    ensures PERSISTENCE_PERIODS.Keys == {"30 days", "90 days", "180 days", "1 year"}
    ensures PERSISTENCE_PERIODS["30 days"] == 30 && PERSISTENCE_PERIODS["90 days"] == 90
    ensures PERSISTENCE_PERIODS["180 days"] == 180 && PERSISTENCE_PERIODS["1 year"] == 365
    ensures "forever" !in PERSISTENCE_PERIODS
  {
  }

  /** The instant before which (inclusive) a song of this window expires. */
  function ExpiryThreshold(now: int, days: nat): int {
    now - days * SECONDS_PER_DAY
  }

  /** A song expires when it was removed at or before the threshold. */
  predicate Expired(threshold: int, song: DeletedSongRow) {
    song.removedAt <= threshold
  }

  function ExpiredAt(threshold: int): DeletedSongRow -> bool {
    (song: DeletedSongRow) => Expired(threshold, song)
  }

  /** The boundary is inclusive: a song removed exactly `days` days ago has
      expired, one removed a second later has not. */
  lemma ExpiryBoundary(now: int, days: nat, song: DeletedSongRow)
    ensures song.removedAt == now - days * SECONDS_PER_DAY ==> Expired(ExpiryThreshold(now, days), song)
    ensures song.removedAt == now - days * SECONDS_PER_DAY + 1 ==> !Expired(ExpiryThreshold(now, days), song)
  {
  }

  /** The rows the job considers: active deleted songs of this user and
      tracked playlist. */
  function Candidates(rows: seq<DeletedSongRow>, userId: string, playlistId: int): seq<DeletedSongRow> {
    Filter(rows, (r: DeletedSongRow) => r.userId == userId && r.playlistId == playlistId && r.active)
  }

  /** The loop of lines 81-83: the candidates that expired, in row order. */
  method CollectExpired(songs: seq<DeletedSongRow>, threshold: int) returns (songsToExpire: seq<DeletedSongRow>)
    ensures songsToExpire == Filter(songs, ExpiredAt(threshold))
  {
    songsToExpire := [];
    for i := 0 to |songs|
      invariant songsToExpire == Filter(songs[..i], ExpiredAt(threshold))
    {
      assert songs[..i + 1][..i] == songs[..i];
      if songs[i].removedAt <= threshold {
        songsToExpire := songsToExpire + [songs[i]];
      }
    }
    assert songs[..|songs|] == songs;
  }

  /** The expired songs are exactly the candidates at or before the
      threshold, in their order. */
  lemma ExpiredSongsSpec(songs: seq<DeletedSongRow>, threshold: int)
    ensures forall k :: 0 <= k < |Filter(songs, ExpiredAt(threshold))| ==>
              Filter(songs, ExpiredAt(threshold))[k] in songs &&
              Filter(songs, ExpiredAt(threshold))[k].removedAt <= threshold
    ensures forall i :: 0 <= i < |songs| && songs[i].removedAt <= threshold ==>
              songs[i] in Filter(songs, ExpiredAt(threshold))
  {
    forall i | 0 <= i < |songs| && songs[i].removedAt <= threshold
      ensures songs[i] in Filter(songs, ExpiredAt(threshold))
    {
      assert ExpiredAt(threshold)(songs[i]);
    }
  }

  /** The update `active := False` applied to the rows whose id is listed. */
  function DeactivateIn(ids: set<int>): DeletedSongRow -> DeletedSongRow {
    (r: DeletedSongRow) => if r.id in ids then r.(active := false) else r
  }

  function Deactivated(rows: seq<DeletedSongRow>, ids: set<int>): seq<DeletedSongRow> {
    Map(rows, DeactivateIn(ids))
  }

  /** Exactly the listed rows become inactive; every other column of every
      row, and every other row, is unchanged. */
  lemma DeactivatedSpec(rows: seq<DeletedSongRow>, ids: set<int>)
    ensures |Deactivated(rows, ids)| == |rows|
    ensures forall k :: 0 <= k < |rows| ==>
              Deactivated(rows, ids)[k].active == (rows[k].active && rows[k].id !in ids) &&
              Deactivated(rows, ids)[k].(active := rows[k].active) == rows[k]
  {
  }

  /** Deactivating one more id after a set of ids is deactivating their union. */
  lemma DeactivatedStep(rows: seq<DeletedSongRow>, ids: set<int>, id: int)
    ensures Deactivated(Deactivated(rows, ids), {id}) == Deactivated(rows, ids + {id})
  {
    var a := Deactivated(Deactivated(rows, ids), {id});
    var b := Deactivated(rows, ids + {id});
    assert |a| == |b|;
    forall k | 0 <= k < |a|
      ensures a[k] == b[k]
    {
    }
  }

  /** 'Deleted Songs'. */
  class DeletedSongsTable {
    var rows: seq<DeletedSongRow>

    constructor (rows: seq<DeletedSongRow>)
      ensures this.rows == rows
    {
      this.rows := rows;
    }

    /** `update({'active': False}).eq('id', id)`. */
    method Deactivate(id: int)
      modifies this
      ensures rows == Deactivated(old(rows), {id})
    {
      rows := Deactivated(rows, {id});
    }
  }

  function IdsOf(songs: seq<DeletedSongRow>): set<int> {
    set k | 0 <= k < |songs| :: songs[k].id
  }

  function TrackIdOf(song: DeletedSongRow): string {
    song.trackId
  }

  /** The songs the job expires: the candidates at or before the window's
      threshold, or none when the setting has no window. */
  function ExpiredSongs(rows: seq<DeletedSongRow>, userId: string, playlistId: int,
                        persistence: string, now: int): seq<DeletedSongRow> {
    if persistence in PERSISTENCE_PERIODS
    then Filter(Candidates(rows, userId, playlistId),
                ExpiredAt(ExpiryThreshold(now, PERSISTENCE_PERIODS[persistence])))
    else []
  }

  /** The loop of lines 103-105: every listed song is updated by id. */
  method DeactivateAll(table: DeletedSongsTable, songs: seq<DeletedSongRow>)
    modifies table
    ensures table.rows == Deactivated(old(table.rows), IdsOf(songs))
  {
    ghost var before := table.rows;
    for i := 0 to |songs|
      invariant table.rows == Deactivated(before, IdsOf(songs[..i]))
    {
      DeactivatedStep(before, IdsOf(songs[..i]), songs[i].id);
      IdsOfSnoc(songs, i);
      table.Deactivate(songs[i].id);
    }
    assert songs[..|songs|] == songs;
  }

  lemma IdsOfSnoc(songs: seq<DeletedSongRow>, i: nat)
    requires i < |songs|
    ensures IdsOf(songs[..i + 1]) == IdsOf(songs[..i]) + {songs[i].id}
  {
    assert songs[..i + 1] == songs[..i] + [songs[i]];
  }

  /** What the job reports. */
  datatype Message = NoTrackedPlaylist | PersistenceForever | NoSongsToExpire

  datatype Failure = NoSettings | NoDeletedSongs | NoAccess | ServiceConstruction

  datatype ExpiryResult =
    | Reported(message: Message)
    | Response(modifiedPlaylist: Option<string>, removedSongs: Option<string>)
    | Raised(failure: Failure)

  /** `Removed {n} tracks from {removed_playlist_name}`; a missing name
      formats as `None`. */
  function ModifiedPlaylistText(n: nat, name: Option<string>): string {
    "Removed " + NatToString(n) + " tracks from " + name.GetOr("None")
  }

  function RemovedSongsText(n: nat): string {
    "Removed " + NatToString(n) + " songs from Deleted Songs table"
  }

  /** The mirror playlist is edited only when the setting asks for it and a
      mirror playlist is stored. */
  predicate RemovesFromMirror(settings: UserSettingsRow, tracked: TrackedPlaylistRow) {
    settings.removeFromPlaylist && Truthy(tracked.removedPlaylistId)
  }

  /** `check_song_expiry` with the upstream client built as its constructor
      allows. `mirror` is the removal sent to the mirror playlist (its id and
      the expired track ids), if any. */
  method CheckSongExpiry(table: DeletedSongsTable, userId: string, playlistId: int,
                         tracked: Option<TrackedPlaylistRow>, settings: Option<UserSettingsRow>,
                         access: Option<AccessRow>, now: int)
    returns (result: ExpiryResult, mirror: Option<(string, seq<string>)>)
    modifies table
    ensures tracked.None? ==> result == Reported(NoTrackedPlaylist) && mirror == None && table.rows == old(table.rows)
    ensures tracked.Some? && settings.None? ==> result == Raised(NoSettings) && mirror == None && table.rows == old(table.rows)
    ensures tracked.Some? && settings.Some? && settings.value.playlistPersistence == "forever" ==>
              result == Reported(PersistenceForever) && mirror == None && table.rows == old(table.rows)
    ensures tracked.Some? && settings.Some? && settings.value.playlistPersistence != "forever" &&
            Candidates(old(table.rows), userId, playlistId) == [] ==>
              result == Raised(NoDeletedSongs) && mirror == None && table.rows == old(table.rows)
    ensures tracked.Some? && settings.Some? && settings.value.playlistPersistence != "forever" &&
            Candidates(old(table.rows), userId, playlistId) != [] ==>
              var expired := ExpiredSongs(old(table.rows), userId, playlistId, settings.value.playlistPersistence, now);
              var mirrored := RemovesFromMirror(settings.value, tracked.value);
              && (expired == [] ==> result == Reported(NoSongsToExpire) && mirror == None && table.rows == old(table.rows))
              && (expired != [] && mirrored && access.None? ==>
                    result == Raised(Failure.NoAccess) && mirror == None && table.rows == old(table.rows))
              && (expired != [] && !(mirrored && access.None?) ==>
                    && table.rows == Deactivated(old(table.rows), IdsOf(expired))
                    && result.Response?
                    && result.removedSongs == Some(RemovedSongsText(|expired|))
                    && (mirrored ==>
                          && mirror == Some((tracked.value.removedPlaylistId.value, Map(expired, TrackIdOf)))
                          && result.modifiedPlaylist == Some(ModifiedPlaylistText(|expired|, tracked.value.removedPlaylistName)))
                    && (!mirrored ==> mirror == None && result.modifiedPlaylist == None))
  {
    mirror := None;
    if tracked.None? {
      return Reported(NoTrackedPlaylist), None;
    }
    if settings.None? {
      return Raised(NoSettings), None;
    }
    var persistence := settings.value.playlistPersistence;
    if persistence == "forever" {
      return Reported(PersistenceForever), None;
    }
    var deletedSongs := Candidates(table.rows, userId, playlistId);
    if deletedSongs == [] {
      return Raised(NoDeletedSongs), None;
    }
    var songsToExpire: seq<DeletedSongRow> := [];
    if persistence in PERSISTENCE_PERIODS {
      var threshold := ExpiryThreshold(now, PERSISTENCE_PERIODS[persistence]);
      songsToExpire := CollectExpired(deletedSongs, threshold);
    }
    if |songsToExpire| == 0 {
      return Reported(NoSongsToExpire), None;
    }
    var modifiedPlaylist: Option<string> := None;
    var removedSongs: Option<string> := None;
    if RemovesFromMirror(settings.value, tracked.value) {
      if access.None? {
        return Raised(Failure.NoAccess), None;
      }
      var removedTrackIds := Map(songsToExpire, TrackIdOf);
      mirror := Some((tracked.value.removedPlaylistId.value, removedTrackIds));
      modifiedPlaylist := Some(ModifiedPlaylistText(|removedTrackIds|, tracked.value.removedPlaylistName));
    }
    DeactivateAll(table, songsToExpire);
    removedSongs := Some(RemovedSongsText(|songsToExpire|));
    result := Response(modifiedPlaylist, removedSongs);
  }

  /** `check_song_expiry` as written: when the mirror playlist is to be
      edited, line 97 passes the access row to a constructor that takes no
      argument and raises, so the expired songs stay active. */
  method CheckSongExpiryAsWritten(table: DeletedSongsTable, userId: string, playlistId: int,
                                  tracked: TrackedPlaylistRow, settings: UserSettingsRow,
                                  access: AccessRow, now: int)
    returns (result: ExpiryResult)
    modifies table
    ensures RemovesFromMirror(settings, tracked) &&
            ExpiredSongs(old(table.rows), userId, playlistId, settings.playlistPersistence, now) != [] ==>
              result == Raised(ServiceConstruction) && table.rows == old(table.rows)
  {
    var persistence := settings.playlistPersistence;
    if persistence == "forever" {
      return Reported(PersistenceForever);
    }
    var deletedSongs := Candidates(table.rows, userId, playlistId);
    if deletedSongs == [] {
      return Raised(NoDeletedSongs);
    }
    var songsToExpire: seq<DeletedSongRow> := [];
    if persistence in PERSISTENCE_PERIODS {
      songsToExpire := CollectExpired(deletedSongs, ExpiryThreshold(now, PERSISTENCE_PERIODS[persistence]));
    }
    if |songsToExpire| == 0 {
      return Reported(NoSongsToExpire);
    }
    if RemovesFromMirror(settings, tracked) {
      return Raised(ServiceConstruction);
    }
    DeactivateAll(table, songsToExpire);
    result := Response(None, Some(RemovedSongsText(|songsToExpire|)));
  }

  /** A song removed 31 days before the check under a 30-day window, with
      mirror removal on: the window has passed, so as written the job
      raises and leaves it active, while the corrected task deactivates it. */
  lemma AsWrittenKeepsExpiredSong()
    ensures var song := DeletedSongRow(1, "u", 7, "t", 0, true);
            var now := 31 * SECONDS_PER_DAY;
            && RemovesFromMirror(UserSettingsRow("30 days", true), TrackedPlaylistRow(7, "u", "p", "P", Some("m"), Some("M")))
            && Candidates([song], "u", 7) == [song]
            && Filter([song], ExpiredAt(ExpiryThreshold(now, PERSISTENCE_PERIODS["30 days"]))) == [song]
            && Deactivated([song], IdsOf([song]))[0].active == false
  {
    var song := DeletedSongRow(1, "u", 7, "t", 0, true);
    PersistencePeriods();
    FilterSingleton(song, (r: DeletedSongRow) => r.userId == "u" && r.playlistId == 7 && r.active);
    FilterSingleton(song, ExpiredAt(ExpiryThreshold(31 * SECONDS_PER_DAY, 30)));
    assert [song][0].id in IdsOf([song]);
  }
}
