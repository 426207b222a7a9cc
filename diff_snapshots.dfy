/** The diff task: compare the two newest snapshots of a tracked playlist,
    record the tracks that disappeared (cached track rows, deleted-song rows)
    and add them to the user's "removed" mirror playlist. Database, storage
    and upstream answers are inputs; every write or upstream call the job
    makes is an `Effect` in the order it happens. */
module DiffSnapshots {
  import opened Wrappers
  import opened Sequences
  import opened Strings
  import opened Records
  import opened SpotifyService

  /** `load_snapshot`: download, decompress and parse; any failure is None. */
  function LoadSnapshot(storage: map<string, Blob>, fileName: string): (r: Option<seq<SnapshotEntry>>)
    ensures r.Some? <==> fileName in storage && storage[fileName].Gzip? && storage[fileName].json.TrackList?
    ensures r.Some? ==> storage[fileName] == Gzip(TrackList(r.value))
  {
    if fileName !in storage then None
    else match storage[fileName]
      case NotGzip => None
      case Gzip(OtherJson) => None
      case Gzip(TrackList(entries)) => Some(entries)
  }

  /** What the snapshot methods upload is what the diff task loads back. */
  lemma LoadAfterUpload(objects: map<string, Blob>, path: string, entries: seq<SnapshotEntry>)
    ensures LoadSnapshot(objects[path := Gzip(TrackList(entries))], path) == Some(entries)
  {
  }

  /** The ids occurring in a snapshot (`set(track['id'] for track in ...)`). */
  function IdSet(entries: seq<SnapshotEntry>): set<string> {
    set i | 0 <= i < |entries| :: entries[i].id
  }

  /** The removed tracks: ids of the previous snapshot absent from the latest. */
  function RemovedIds(previous: seq<SnapshotEntry>, latest: seq<SnapshotEntry>): set<string> {
    IdSet(previous) - IdSet(latest)
  }

  /** An id is removed exactly when some previous entry carries it and no
      latest entry does; order and repetition play no part, and an id that
      only the latest snapshot has is never removed. */
  lemma RemovedIdsSpec(previous: seq<SnapshotEntry>, latest: seq<SnapshotEntry>, id: string)
    ensures id in RemovedIds(previous, latest) <==>
              (exists i :: 0 <= i < |previous| && previous[i].id == id) &&
              (forall j :: 0 <= j < |latest| ==> latest[j].id != id)
  {
    if id in RemovedIds(previous, latest) {
      var i :| 0 <= i < |previous| && previous[i].id == id;
    }
    if exists i :: 0 <= i < |previous| && previous[i].id == id {
      var i :| 0 <= i < |previous| && previous[i].id == id;
      assert previous[i].id in IdSet(previous);
    }
  }

  /** Listing an entry twice in the previous snapshot changes nothing. */
  lemma RemovedIdsIgnoreDuplicates(previous: seq<SnapshotEntry>, latest: seq<SnapshotEntry>, k: int)
    requires 0 <= k < |previous|
    ensures RemovedIds(previous + [previous[k]], latest) == RemovedIds(previous, latest)
  {
    var p := previous + [previous[k]];
    assert IdSet(p) == IdSet(previous) by {
      forall x | x in IdSet(p)
        ensures x in IdSet(previous)
      {
        var i :| 0 <= i < |p| && p[i].id == x;
        if i == |previous| {
          assert previous[k].id == x;
        } else {
          assert previous[i].id == x;
        }
      }
      forall x | x in IdSet(previous)
        ensures x in IdSet(p)
      {
        var i :| 0 <= i < |previous| && previous[i].id == x;
        assert p[i].id == x;
      }
    }
  }

  function Entry(id: string): SnapshotEntry {
    SnapshotEntry(id, "", "", "", "", None)
  }

  /** Entries that occur in both snapshots of a pair carry the same ids. */
  lemma {:induction false} IdSetOfSameEntries(a: seq<SnapshotEntry>, b: seq<SnapshotEntry>)
    requires forall e :: e in a <==> e in b
    ensures IdSet(a) == IdSet(b)
  {
    forall x | x in IdSet(a)
      ensures x in IdSet(b)
    {
      var i :| 0 <= i < |a| && a[i].id == x;
      assert a[i] in b;
      var j :| 0 <= j < |b| && b[j] == a[i];
    }
    forall x | x in IdSet(b)
      ensures x in IdSet(a)
    {
      var j :| 0 <= j < |b| && b[j].id == x;
      assert b[j] in a;
      var i :| 0 <= i < |a| && a[i] == b[j];
    }
  }

  /** The removed set depends only on which entries each snapshot holds:
      reordering or repeating entries of either snapshot changes nothing. */
  lemma RemovedIdsOrderFree(previous: seq<SnapshotEntry>, latest: seq<SnapshotEntry>,
                            previous': seq<SnapshotEntry>, latest': seq<SnapshotEntry>)
    requires forall e :: e in previous <==> e in previous'
    requires forall e :: e in latest <==> e in latest'
    ensures RemovedIds(previous, latest) == RemovedIds(previous', latest')
  {
    IdSetOfSameEntries(previous, previous');
    IdSetOfSameEntries(latest, latest');
  }

  /** A row upserted into 'Cached Tracks'. */
  datatype CachedTrackUpsert = CachedTrackUpsert(
    trackId: string,
    updatedAt: int,
    name: string,
    artist: string,
    image: string,
    album: string)

  /** A row upserted into 'Deleted Songs'. */
  datatype DeletedSongUpsert = DeletedSongUpsert(
    userId: string,
    trackId: string,
    removedAt: int,
    playlistId: int)

  /** The writes and upstream calls of the job, in the order they happen. */
  datatype Effect =
    | UpsertCachedTracks(cached: seq<CachedTrackUpsert>, onConflict: string)
    | UpsertDeletedSongs(deleted: seq<DeletedSongUpsert>, onConflict: string)
    | CreatePlaylist(spotifyUserId: string, tracked: TrackedPlaylistRow)
    | SetRemovedPlaylistId(userId: string, trackedId: int, removedPlaylistId: string)
    | AddTracksToPlaylist(target: string, uris: seq<string>)

  /** Why the job stopped early: it returned, or it raised. */
  datatype Reason =
    | NoTrackedPlaylist
    | NotEnoughSnapshots
    | MissingSnapshotId
    | PreviousUnloadable
    | LatestUnloadable
    | NoRemovals
    | MissingImage
    | CacheUpsertFailed
    | NoSettings
    | NoAccess
    | ServiceConstruction
    | PlaylistNotCreated

  datatype Ending = Done | Returned(reason: Reason) | Raised(reason: Reason)

  predicate IsUpsertDeleted(e: Effect) {
    e.UpsertDeletedSongs?
  }

  /** The previous entries whose id was removed, in snapshot order. */
  function InSet(removed: set<string>): SnapshotEntry -> bool {
    (e: SnapshotEntry) => e.id in removed
  }

  /** Every previous entry of a removed track has an `image` key. */
  predicate ImagesPresent(previous: seq<SnapshotEntry>, removed: set<string>) {
    forall i :: 0 <= i < |previous| && previous[i].id in removed ==> previous[i].image.Some?
  }

  function CachedUpsert(e: SnapshotEntry, now: int): CachedTrackUpsert {
    CachedTrackUpsert(e.id, now, e.name, e.artist, e.image.GetOr(""), e.album)
  }

  function ToCached(now: int): SnapshotEntry -> CachedTrackUpsert {
    e => CachedUpsert(e, now)
  }

  function EntryId(e: SnapshotEntry): string {
    e.id
  }

  function RowTrackId(row: CachedTrackUpsert): string {
    row.trackId
  }

  /** The cached-track rows: one per previous entry of a removed track. */
  function CachedUpserts(previous: seq<SnapshotEntry>, removed: set<string>, now: int): seq<CachedTrackUpsert> {
    Map(Filter(previous, InSet(removed)), ToCached(now))
  }

  function IsRemoved(removed: set<string>): string -> bool {
    id => id in removed
  }

  /** The track ids of the cached rows are the previous snapshot's ids with
      every id that was not removed dropped, in snapshot order. */
  lemma {:induction false} CachedUpsertIds(previous: seq<SnapshotEntry>, removed: set<string>, now: int)
    ensures Map(CachedUpserts(previous, removed, now), RowTrackId) == Filter(Map(previous, EntryId), IsRemoved(removed))
    decreases |previous|
  {
    if |previous| > 0 {
      var n := |previous| - 1;
      var init, last := previous[..n], previous[n];
      var p := IsRemoved(removed);
      var tail := if last.id in removed then [last.id] else [];
      CachedUpsertIds(init, removed, now);
      assert previous == init + [last];
      MapAppend(init, last, EntryId);
      FilterConcat(Map(init, EntryId), [last.id], p);
      FilterSingleton(last.id, p);
      assert Filter(Map(previous, EntryId), p) == Filter(Map(init, EntryId), p) + tail;
      CachedUpsertsSnoc(init, last, removed, now);
      assert Map(CachedUpserts(previous, removed, now), RowTrackId) ==
               Map(CachedUpserts(init, removed, now), RowTrackId) + tail;
    }
  }

  lemma CachedUpsertsSnoc(init: seq<SnapshotEntry>, last: SnapshotEntry, removed: set<string>, now: int)
    ensures Map(CachedUpserts(init + [last], removed, now), RowTrackId) ==
              Map(CachedUpserts(init, removed, now), RowTrackId) + if last.id in removed then [last.id] else []
  {
    var kept := Filter(init, InSet(removed));
    assert (init + [last])[..|init|] == init;
    if last.id in removed {
      assert Filter(init + [last], InSet(removed)) == kept + [last];
      MapAppend(kept, last, ToCached(now));
      MapAppend(Map(kept, ToCached(now)), CachedUpsert(last, now), RowTrackId);
    } else {
      assert Filter(init + [last], InSet(removed)) == kept;
    }
  }

  /** A removed id has as many cached rows as previous entries carrying it;
      any other id has none. */
  lemma CachedUpsertsCount(previous: seq<SnapshotEntry>, removed: set<string>, now: int, t: string)
    ensures multiset(Map(CachedUpserts(previous, removed, now), RowTrackId))[t] ==
              if t in removed then multiset(Map(previous, EntryId))[t] else 0
  {
    CachedUpsertIds(previous, removed, now);
    FilterCount(Map(previous, EntryId), IsRemoved(removed), t);
  }

  /** Each cached row is the row of some previous entry of a removed track. */
  lemma CachedUpsertsFromRemoved(previous: seq<SnapshotEntry>, removed: set<string>, now: int)
    ensures forall k :: 0 <= k < |CachedUpserts(previous, removed, now)| ==>
              exists i :: 0 <= i < |previous| && previous[i].id in removed &&
                CachedUpserts(previous, removed, now)[k] == CachedUpsert(previous[i], now)
  {
    var kept := Filter(previous, InSet(removed));
    var rows := CachedUpserts(previous, removed, now);
    forall k | 0 <= k < |rows|
      ensures exists i :: 0 <= i < |previous| && previous[i].id in removed && rows[k] == CachedUpsert(previous[i], now)
    {
      assert rows[k] == CachedUpsert(kept[k], now) && kept[k] in previous && InSet(removed)(kept[k]);
      var i :| 0 <= i < |previous| && previous[i] == kept[k];
    }
  }

  /** Each previous entry of a removed track has its row. */
  lemma CachedUpsertsCoverRemoved(previous: seq<SnapshotEntry>, removed: set<string>, now: int)
    ensures forall i :: 0 <= i < |previous| && previous[i].id in removed ==>
              exists k :: 0 <= k < |CachedUpserts(previous, removed, now)| &&
                CachedUpserts(previous, removed, now)[k] == CachedUpsert(previous[i], now)
  {
    var kept := Filter(previous, InSet(removed));
    var rows := CachedUpserts(previous, removed, now);
    forall i | 0 <= i < |previous| && previous[i].id in removed
      ensures exists k :: 0 <= k < |rows| && rows[k] == CachedUpsert(previous[i], now)
    {
      assert InSet(removed)(previous[i]);
      var k :| 0 <= k < |kept| && kept[k] == previous[i];
      assert rows[k] == CachedUpsert(kept[k], now);
    }
  }

  /** Every cached row is stamped with the job's start time and is the row of
      a previous entry of a removed track; every such entry has its row,
      carrying its name, artist, album and image; and each removed id has as
      many rows as previous entries carrying it. */
  lemma CachedUpsertsSpec(previous: seq<SnapshotEntry>, removed: set<string>, now: int, t: string)
    requires ImagesPresent(previous, removed)
    ensures forall k :: 0 <= k < |CachedUpserts(previous, removed, now)| ==>
              CachedUpserts(previous, removed, now)[k].updatedAt == now &&
              CachedUpserts(previous, removed, now)[k].trackId in removed
    ensures forall k :: 0 <= k < |CachedUpserts(previous, removed, now)| ==>
              exists i :: 0 <= i < |previous| && previous[i].id in removed &&
                CachedUpserts(previous, removed, now)[k] == CachedUpsert(previous[i], now)
    ensures multiset(Map(CachedUpserts(previous, removed, now), RowTrackId))[t] ==
              if t in removed then multiset(Map(previous, EntryId))[t] else 0
    ensures forall i :: 0 <= i < |previous| && previous[i].id in removed ==>
              exists k :: 0 <= k < |CachedUpserts(previous, removed, now)| &&
                CachedUpserts(previous, removed, now)[k] ==
                  CachedTrackUpsert(previous[i].id, now, previous[i].name, previous[i].artist,
                                    previous[i].image.value, previous[i].album)
  {
    CachedUpsertsFromRemoved(previous, removed, now);
    CachedUpsertsCoverRemoved(previous, removed, now);
    CachedUpsertsCount(previous, removed, now, t);
  }

  /** How far the guard sequence of lines up to the access check got: the
      job stopped with the effects so far, or it may go on to record the
      removed ids. */
  datatype Stage =
    | Stopped(effects: seq<Effect>, ending: Ending)
    | Proceed(effects: seq<Effect>, tracked: TrackedPlaylistRow, removed: set<string>)

  /** The guards of the job, in source order, up to the construction of the
      upstream client. `snapshots` are the two newest 'Library Snapshots'
      rows, newest first; `cacheUpserted` is the truthiness of the cache
      upsert's answer; `access` is the newest access row of the user. */
  function Guards(tracked: Option<TrackedPlaylistRow>, snapshots: seq<SnapshotRow>,
                  storage: map<string, Blob>, settings: Option<UserSettingsRow>,
                  access: Option<AccessRow>, cacheUpserted: bool, now: int): (r: Stage)
    ensures tracked.None? ==> r == Stopped([], Returned(NoTrackedPlaylist))
    ensures tracked.Some? && |snapshots| < 2 ==> r == Stopped([], Returned(NotEnoughSnapshots))
    ensures tracked.Some? && |snapshots| >= 2 &&
            (snapshots[0].snapshotId.None? || snapshots[1].snapshotId.None?) ==>
              r == Stopped([], Returned(MissingSnapshotId))
    ensures tracked.Some? && |snapshots| >= 2 &&
            snapshots[0].snapshotId.Some? && snapshots[1].snapshotId.Some? ==>
              var previous := LoadSnapshot(storage, snapshots[1].snapshotId.value);
              var latest := LoadSnapshot(storage, snapshots[0].snapshotId.value);
              && (previous.None? || |previous.value| == 0 ==> r == Stopped([], Raised(PreviousUnloadable)))
              && (previous.Some? && |previous.value| > 0 && latest.None? ==>
                    r == Stopped([], Raised(LatestUnloadable)))
              && (previous.Some? && |previous.value| > 0 && latest.Some? ==>
                    var removed := RemovedIds(previous.value, latest.value);
                    var effects := [UpsertCachedTracks(CachedUpserts(previous.value, removed, now), "track_id")];
                    && (removed == {} ==> r == Stopped([], Returned(NoRemovals)))
                    && (removed != {} && !ImagesPresent(previous.value, removed) ==>
                          r == Stopped([], Raised(MissingImage)))
                    && (removed != {} && ImagesPresent(previous.value, removed) ==>
                          && (!cacheUpserted ==> r == Stopped(effects, Returned(CacheUpsertFailed)))
                          && (cacheUpserted && settings.None? ==> r == Stopped(effects, Returned(NoSettings)))
                          && (cacheUpserted && settings.Some? && access.None? ==>
                                r == Stopped(effects, Raised(Reason.NoAccess)))
                          && (cacheUpserted && settings.Some? && access.Some? ==>
                                r == Proceed(effects, tracked.value, removed))))
    ensures r.Stopped? && r.effects != [] ==>
              && tracked.Some? && |snapshots| >= 2
              && snapshots[0].snapshotId.Some? && snapshots[1].snapshotId.Some?
              && LoadSnapshot(storage, snapshots[1].snapshotId.value).Some?
              && LoadSnapshot(storage, snapshots[0].snapshotId.value).Some?
              && var previous := LoadSnapshot(storage, snapshots[1].snapshotId.value).value;
                 var latest := LoadSnapshot(storage, snapshots[0].snapshotId.value).value;
                 && RemovedIds(previous, latest) != {}
                 && ImagesPresent(previous, RemovedIds(previous, latest))
                 && r.ending in {Returned(CacheUpsertFailed), Returned(NoSettings), Raised(Reason.NoAccess)}
    ensures r.Proceed? ==>
              && tracked.Some? && r.tracked == tracked.value
              && |snapshots| >= 2 && snapshots[0].snapshotId.Some? && snapshots[1].snapshotId.Some?
              && LoadSnapshot(storage, snapshots[1].snapshotId.value).Some?
              && LoadSnapshot(storage, snapshots[0].snapshotId.value).Some?
              && var previous := LoadSnapshot(storage, snapshots[1].snapshotId.value).value;
                 var latest := LoadSnapshot(storage, snapshots[0].snapshotId.value).value;
                 && |previous| > 0
                 && r.removed == RemovedIds(previous, latest) && r.removed != {}
                 && ImagesPresent(previous, r.removed)
                 && r.effects == [UpsertCachedTracks(CachedUpserts(previous, r.removed, now), "track_id")]
                 && cacheUpserted && settings.Some? && access.Some?
    ensures r.Stopped? ==> r.ending != Done && r.ending != Raised(ServiceConstruction)
    ensures r.Stopped? && |r.effects| > 0 ==>
              |r.effects| == 1 && r.effects[0].UpsertCachedTracks? && r.effects[0].onConflict == "track_id"
  {
    if tracked.None? then Stopped([], Returned(NoTrackedPlaylist))
    else if |snapshots| < 2 then Stopped([], Returned(NotEnoughSnapshots))
    else if snapshots[0].snapshotId.None? || snapshots[1].snapshotId.None? then
      Stopped([], Returned(MissingSnapshotId))
    else
      var previous := LoadSnapshot(storage, snapshots[1].snapshotId.value);
      if previous.None? || |previous.value| == 0 then Stopped([], Raised(PreviousUnloadable))
      else
        var latest := LoadSnapshot(storage, snapshots[0].snapshotId.value);
        if latest.None? then Stopped([], Raised(LatestUnloadable))
        else
          var removed := RemovedIds(previous.value, latest.value);
          if removed == {} then Stopped([], Returned(NoRemovals))
          else if !ImagesPresent(previous.value, removed) then Stopped([], Raised(MissingImage))
          else
            var effects := [UpsertCachedTracks(CachedUpserts(previous.value, removed, now), "track_id")];
            if !cacheUpserted then Stopped(effects, Returned(CacheUpsertFailed))
            else if settings.None? then Stopped(effects, Returned(NoSettings))
            else if access.None? then Stopped(effects, Raised(Reason.NoAccess))
            else Proceed(effects, tracked.value, removed)
  }

  /** Nothing is written unless the previous snapshot lost a track: every
      stop before the removed set is known, and an empty removed set, leaves
      the effects empty. */
  lemma NoRemovalsNoWrites(tracked: Option<TrackedPlaylistRow>, snapshots: seq<SnapshotRow>,
                           storage: map<string, Blob>, settings: Option<UserSettingsRow>,
                           access: Option<AccessRow>, cacheUpserted: bool, now: int)
    requires tracked.Some? && |snapshots| >= 2
    requires snapshots[0].snapshotId.Some? && snapshots[1].snapshotId.Some?
    requires LoadSnapshot(storage, snapshots[1].snapshotId.value).Some?
    requires LoadSnapshot(storage, snapshots[0].snapshotId.value).Some?
    requires RemovedIds(LoadSnapshot(storage, snapshots[1].snapshotId.value).value,
                        LoadSnapshot(storage, snapshots[0].snapshotId.value).value) == {}
    ensures Guards(tracked, snapshots, storage, settings, access, cacheUpserted, now).Stopped?
    ensures Guards(tracked, snapshots, storage, settings, access, cacheUpserted, now).effects == []
  {
  }

  /** An id that reaches the mirror playlist. */
  function TrackUri(id: string): string {
    "spotify:track:" + id
  }

  /** The id is recovered from its URI, so distinct ids give distinct URIs. */
  lemma TrackUriRoundTrip(id: string)
    ensures StartsWith(TrackUri(id), "spotify:track:")
    ensures TrackUri(id)[|"spotify:track:"|..] == id
  {
  }

  function DeletedSongRowFor(userId: string, playlistId: int, now: int): string -> DeletedSongUpsert {
    id => DeletedSongUpsert(userId, id, now, playlistId)
  }

  /** Lists the elements of `s` once each, in the order a set iteration
      visits them (which the model leaves open). */
  method EnumerateSet(s: set<string>) returns (order: seq<string>)
    ensures forall x :: x in order <==> x in s
    ensures Distinct(order)
    ensures |order| == |s|
  {
    order := [];
    var rest := s;
    while rest != {}
      invariant rest <= s
      invariant forall x :: x in order <==> x in s && x !in rest
      invariant Distinct(order)
      invariant |order| + |rest| == |s|
      decreases |rest|
    {
      var x :| x in rest;
      order := order + [x];
      rest := rest - {x};
    }
  }

  /** The writes after the guards: one deleted-song row per removed id, then
      the mirror playlist (the stored one, or one created now and stored on
      the tracked row), then the URIs of the removed ids added to it.
      `created` is the id the playlist creation answers; `order` is the
      iteration order of the removed set, shared by the rows and the URIs. */
  method RecordRemovals(userId: string, spotifyUserId: string, playlistId: int, before: seq<Effect>,
                        tracked: TrackedPlaylistRow, removed: set<string>, created: Option<string>, now: int)
    returns (effects: seq<Effect>, ending: Ending, order: seq<string>)
    ensures (forall x :: x in order <==> x in removed) && Distinct(order)
    ensures var head := before + [UpsertDeletedSongs(Map(order, DeletedSongRowFor(userId, playlistId, now)),
                                                     "track_id,user_id,playlist_id")];
            && (Truthy(tracked.removedPlaylistId) ==>
                  ending == Done &&
                  effects == head + [AddTracksToPlaylist(tracked.removedPlaylistId.value, Map(order, TrackUri))])
            && (!Truthy(tracked.removedPlaylistId) && !Truthy(created) ==>
                  ending == Returned(PlaylistNotCreated) &&
                  effects == head + [CreatePlaylist(spotifyUserId, tracked)])
            && (!Truthy(tracked.removedPlaylistId) && Truthy(created) ==>
                  ending == Done &&
                  effects == head + [CreatePlaylist(spotifyUserId, tracked),
                                     SetRemovedPlaylistId(userId, tracked.id, created.value),
                                     AddTracksToPlaylist(created.value, Map(order, TrackUri))])
  {
    order := EnumerateSet(removed);
    effects := before + [UpsertDeletedSongs(Map(order, DeletedSongRowFor(userId, playlistId, now)),
                                            "track_id,user_id,playlist_id")];
    ghost var head := effects;
    var removedPlaylistId := tracked.removedPlaylistId;
    if !Truthy(removedPlaylistId) {
      effects := effects + [CreatePlaylist(spotifyUserId, tracked)];
      if !Truthy(created) {
        return effects, Returned(PlaylistNotCreated), order;
      }
      effects := effects + [SetRemovedPlaylistId(userId, tracked.id, created.value)];
      removedPlaylistId := created;
      effects := effects + [AddTracksToPlaylist(removedPlaylistId.value, Map(order, TrackUri))];
      assert effects == head + [CreatePlaylist(spotifyUserId, tracked),
                                SetRemovedPlaylistId(userId, tracked.id, created.value),
                                AddTracksToPlaylist(created.value, Map(order, TrackUri))];
    } else {
      effects := effects + [AddTracksToPlaylist(removedPlaylistId.value, Map(order, TrackUri))];
    }
    ending := Done;
  }

  /** `diff_snapshots` with the upstream client built as its constructor
      allows: the guards, then the writes of `RecordRemovals`. */
  method DiffSnapshots(userId: string, spotifyUserId: string, playlistId: int,
                       tracked: Option<TrackedPlaylistRow>, snapshots: seq<SnapshotRow>,
                       storage: map<string, Blob>, settings: Option<UserSettingsRow>,
                       access: Option<AccessRow>, cacheUpserted: bool, created: Option<string>, now: int)
    returns (effects: seq<Effect>, ending: Ending, order: seq<string>)
    ensures var g := Guards(tracked, snapshots, storage, settings, access, cacheUpserted, now);
            && (g.Stopped? ==> effects == g.effects && ending == g.ending && order == [])
            && (g.Proceed? ==>
                  && (forall x :: x in order <==> x in g.removed) && Distinct(order)
                  && var head := g.effects + [UpsertDeletedSongs(Map(order, DeletedSongRowFor(userId, playlistId, now)),
                                                                 "track_id,user_id,playlist_id")];
                     && (Truthy(g.tracked.removedPlaylistId) ==>
                           ending == Done &&
                           effects == head + [AddTracksToPlaylist(g.tracked.removedPlaylistId.value, Map(order, TrackUri))])
                     && (!Truthy(g.tracked.removedPlaylistId) && !Truthy(created) ==>
                           ending == Returned(PlaylistNotCreated) &&
                           effects == head + [CreatePlaylist(spotifyUserId, g.tracked)])
                     && (!Truthy(g.tracked.removedPlaylistId) && Truthy(created) ==>
                           ending == Done &&
                           effects == head + [CreatePlaylist(spotifyUserId, g.tracked),
                                              SetRemovedPlaylistId(userId, g.tracked.id, created.value),
                                              AddTracksToPlaylist(created.value, Map(order, TrackUri))]))
  {
    var g := Guards(tracked, snapshots, storage, settings, access, cacheUpserted, now);
    if g.Stopped? {
      return g.effects, g.ending, [];
    }
    effects, ending, order := RecordRemovals(userId, spotifyUserId, playlistId, g.effects,
                                             g.tracked, g.removed, created, now);
  }

  /** The deleted-song rows of the job: exactly one per removed id, all of
      them stamped with the job's start time and the tracked playlist's id. */
  lemma DeletedRowsOnePerId(order: seq<string>, removed: set<string>, userId: string, playlistId: int, now: int)
    requires forall x :: x in order <==> x in removed
    requires Distinct(order)
    ensures var rows := Map(order, DeletedSongRowFor(userId, playlistId, now));
            && (forall k :: 0 <= k < |rows| ==>
                  rows[k].removedAt == now && rows[k].playlistId == playlistId &&
                  rows[k].userId == userId && rows[k].trackId in removed)
            && (forall id :: id in removed ==> DeletedSongUpsert(userId, id, now, playlistId) in rows)
            && (forall k, l :: 0 <= k < l < |rows| ==> rows[k].trackId != rows[l].trackId)
  {
    var rows := Map(order, DeletedSongRowFor(userId, playlistId, now));
    assert forall k :: 0 <= k < |rows| ==> rows[k] == DeletedSongUpsert(userId, order[k], now, playlistId);
    forall id | id in removed
      ensures DeletedSongUpsert(userId, id, now, playlistId) in rows
    {
      var k :| 0 <= k < |order| && order[k] == id;
      assert rows[k] == DeletedSongUpsert(userId, id, now, playlistId);
    }
  }

  /** Every removed id is sent as its URI, and only those. */
  lemma UrisOfRemoved(order: seq<string>, removed: set<string>)
    requires forall x :: x in order <==> x in removed
    ensures forall k :: 0 <= k < |Map(order, TrackUri)| ==>
              Map(order, TrackUri)[k] == "spotify:track:" + order[k] && order[k] in removed
    ensures forall id :: id in removed ==> TrackUri(id) in Map(order, TrackUri)
  {
    var uris := Map(order, TrackUri);
    forall id | id in removed
      ensures TrackUri(id) in uris
    {
      var k :| 0 <= k < |order| && order[k] == id;
      assert uris[k] == TrackUri(id);
    }
  }

  /** `diff_snapshots` as written: line 88 passes the access row to a
      constructor that takes no argument, so every run that gets past the
      guards raises there, before any deleted-song row is written. */
  method DiffSnapshotsAsWritten(userId: string, spotifyUserId: string, playlistId: int,
                                tracked: Option<TrackedPlaylistRow>, snapshots: seq<SnapshotRow>,
                                storage: map<string, Blob>, settings: Option<UserSettingsRow>,
                                access: Option<AccessRow>, cacheUpserted: bool, created: Option<string>, now: int)
    returns (effects: seq<Effect>, ending: Ending)
    ensures var g := Guards(tracked, snapshots, storage, settings, access, cacheUpserted, now);
            && (g.Stopped? ==> effects == g.effects && ending == g.ending)
            && (g.Proceed? ==> effects == g.effects && ending == Raised(ServiceConstruction))
    ensures forall k :: 0 <= k < |effects| ==> !IsUpsertDeleted(effects[k])
  {
    var g := Guards(tracked, snapshots, storage, settings, access, cacheUpserted, now);
    effects := g.effects;
    if g.Stopped? {
      ending := g.ending;
    } else {
      ending := Raised(ServiceConstruction);
    }
  }

  /** A run in which a track was removed: the guards let it through, so as
      written it raises and the removal is never recorded, while the
      corrected task writes its deleted-song row. */
  lemma AsWrittenLosesRemoval()
    ensures var storage := map["new" := Gzip(TrackList([Entry("B")])),
                                "old" := Gzip(TrackList([SnapshotEntry("A", "", "", "", "", Some("i"))]))];
            var g := Guards(Some(TrackedPlaylistRow(7, "u", "p", "P", Some("m"), Some("M"))),
                            [SnapshotRow(Some("new")), SnapshotRow(Some("old"))], storage,
                            Some(UserSettingsRow("30 days", false)), Some(AccessRow(1, "t", "r", None)), true, 0);
            g.Proceed? && g.removed == {"A"}
  {
    var storage := map["new" := Gzip(TrackList([Entry("B")])),
                       "old" := Gzip(TrackList([SnapshotEntry("A", "", "", "", "", Some("i"))]))];
    var previous := [SnapshotEntry("A", "", "", "", "", Some("i"))];
    var latest := [Entry("B")];
    assert LoadSnapshot(storage, "old") == Some(previous);
    assert LoadSnapshot(storage, "new") == Some(latest);
    assert IdSet(previous) == {"A"} by {
      assert previous[0].id == "A";
    }
    assert IdSet(latest) == {"B"} by {
      assert latest[0].id == "B";
    }
    assert RemovedIds(previous, latest) == {"A"};
    assert ImagesPresent(previous, {"A"});
    var g := Guards(Some(TrackedPlaylistRow(7, "u", "p", "P", Some("m"), Some("M"))),
                    [SnapshotRow(Some("new")), SnapshotRow(Some("old"))], storage,
                    Some(UserSettingsRow("30 days", false)), Some(AccessRow(1, "t", "r", None)), true, 0);
    assert g.Proceed?;
  }
}
