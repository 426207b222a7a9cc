# TrackKeeper core, modelled in Dafny

TrackKeeper snapshots a user's streaming-service playlists, compares consecutive
snapshots, records the tracks that disappeared ('Deleted Songs' rows, 'Cached
Tracks' rows and a "removed" mirror playlist), and expires those records once the
user's persistence window has passed. Around that sit a web front end and a set of
API routes and server actions.

This project models the decision and data-transformation logic of that code:

- **Backend background jobs** (queued Celery tasks, called "the job" below). The snapshot diff (`DiffSnapshots`) and the retention expiry
  (`SongExpiry`).
- **Backend upstream client's logic** (`SpotifyService`):
  - the paging loops that build and upload a snapshot;
  - the 50-id batching;
  - the snapshot file names;
  - the token-expiry test.
- **Front-end routes.**
  - The track cache (`TrackCache`) splits requested ids into fresh and stale ones.
  - The settings playlists route (`PlaylistsRoute`) pages, filters, orders and
    prefixes the list.
- **Tracked-playlists form** (`TrackedPlaylistsForm`):
  - its default record;
  - the checkbox rules;
  - the submit mapping;
  - de-duplication and the tracked-first order;
  - the row image.
- **Server actions.**
  - `UpdateTrackedPlaylists` splits a save into inserts and updates.
  - `DeleteUserData` tracks a status per category.
- **Small state machines and string logic.**
  - `AuthEmailRateLimit`: the authorization-email rate limit.
  - `SessionMiddleware`: the session routing guard.
  - `UserDropdown`: the "random id" classifier.
  - `LoginErrorHandler` and `AuthErrorHandler`: the two error handlers.
  - `RecentlyDeleted`: the recently-deleted pager.
  - `BaseRedirectUri`: the base redirect URI.

## How external inputs are represented

- The database, object storage, the streaming service and the mail service are
  replaced by inputs:
  - rows and query answers are values;
  - listings are list-backed pages;
  - lookups are function parameters;
  - "did the write fail" is a boolean.
- Writes and upstream calls that a task makes become outputs, listed in order
  (`DiffSnapshots.Effect`).
- Where the source mutates an object in place, the model is a class with that
  object's fields, and the methods update those fields. This covers:
  - the storage bucket;
  - the 'Deleted Songs' table;
  - the form's values;
  - the rate-limit cookie;
  - the pager;
  - the auth error state.
- Times are integers:
  - seconds in the backend (a day is 86400);
  - milliseconds in the front end (a day is 86400000).

## Behaviour the model takes from the code

Some behaviours are easy to misread. Each is stated here with the lines that
fix it, and the model does what those lines do:

- **Removal time.** Deleted-song rows carry `current_time`, read once when the
  job starts (backend/app/tasks/diff_snapshots.py:15). They do not carry the
  newer snapshot's creation time (backend/app/tasks/diff_snapshots.py:91-96).
- **Track cache response.** The route answers with the list of uncached ids
  (frontend/src/app/api/tracks/route.ts:57). The metadata it builds for them is
  never sent or stored, and no cached metadata is returned.
- **Failed upstream lookup.** The upstream call and the mapping of its result
  have no error handling (frontend/src/app/api/tracks/route.ts:44-55). A failure
  there throws, and no stale cached value is used instead. `TrackCache.Post`
  models this with a `lookupFails` input. It stands for a rejected call, such as
  a request for more than 50 ids. It also stands for a null entry for an unknown
  id, which line 48 cannot read.
- **Empty deleted-songs query.** A query that finds no active rows raises
  (backend/app/tasks/check_song_expiry.py:57-62). The job does not end quietly.
- **Failed mirror edit.** The mirror-playlist edit comes before any song is
  marked inactive (backend/app/tasks/check_song_expiry.py:86-105). A failure
  there ends the job with every expired song still active.
- **Site URL.** `getBaseRedirectUri` puts `https://` before each configured
  value, the site URL included (frontend/src/lib/get-base-redirect-uri.ts:2-12).

## Model

| member | source | states |
|---|---|---|
| SpotifyService.SnapshotBucket.Upload | backend/app/services/spotify_service.py:71-80 | A successful upload stores the object under its path and changes nothing else. A failed upload leaves the bucket as it was. |
| SpotifyService.ShapeAll | backend/app/services/spotify_service.py:51-59 | The snapshot built from the items has one entry per item. |
| SpotifyService.ShapeAllAt | backend/app/services/spotify_service.py:51-59 | Entry i holds item i's track id, name, first artist, album and addition time, with no image. |
| SpotifyService.PageShape | backend/app/services/spotify_service.py:44-48 | A page is empty exactly when the offset is past the end. Otherwise it holds the items from the offset up to the limit or the end, in order. |
| SpotifyService.ShapeAllConcat | backend/app/services/spotify_service.py:51-59 | Shaping two item lists one after the other gives the two snapshots concatenated. |
| SpotifyService.AppendEntries | backend/app/services/spotify_service.py:51-59 | The inner loop appends exactly the shaped entries of the page, in page order. |
| SpotifyService.Offsets | backend/app/services/spotify_service.py:43-64 | The offset sequence is non-empty and starts at the first offset. |
| SpotifyService.OffsetsStride | backend/app/services/spotify_service.py:48-62 | Requested offsets are `limit` apart. Every offset but the last falls inside the list, and the last is past its end. |
| SpotifyService.OffsetsStep | backend/app/services/spotify_service.py:62 | After a non-empty page, the offsets still due start one limit further on. |
| SpotifyService.OffsetsDone | backend/app/services/spotify_service.py:48-49 | The first empty page's offset completes the offsets due. |
| SpotifyService.ShapePage | backend/app/services/spotify_service.py:51-61 | The entries collected before a page, plus the page's own entries, are the entries of the list up to the page's end. |
| SpotifyService.CollectTracks | backend/app/services/spotify_service.py:38-64 | The loop collects the shaped entries of the whole listing in order. The count equals the number of items. The offsets asked for are 0, limit, 2·limit, …, ending at the first empty page. |
| SpotifyService.PlaylistFileNamesDistinct | backend/app/services/spotify_service.py:31-36 | Playlist snapshots taken at different seconds get different storage keys. |
| SpotifyService.LikedFileNamesDistinct | backend/app/services/spotify_service.py:85-87 | Saved-tracks snapshots taken at different seconds get different storage keys. |
| SpotifyService.GetUserPlaylistSongs | backend/app/services/spotify_service.py:30-81 | Pages of 100 are read. The whole shaped list is uploaded under `{user}/snapshot_{playlist}_{t}.json.gz` and that name is returned with the item count. A failed upload raises and leaves the bucket unchanged. |
| SpotifyService.GetUserLikedSongs | backend/app/services/spotify_service.py:83-129 | The same as for playlists, with pages of 50 and the name `{user}/snapshot_liked_{t}.json.gz`. |
| SpotifyService.BatchesFlatten | backend/app/services/spotify_service.py:135-136 | The batches concatenate back to the id list, in order. |
| SpotifyService.BatchesSizes | backend/app/services/spotify_service.py:135-136 | Every batch holds 1 to 50 ids, and there are ⌈n/50⌉ batches. |
| SpotifyService.BatchesFrom | backend/app/services/spotify_service.py:135-136 | The batches from position i are the slice `[i, i+50)`, clamped to the end, followed by the batches after it. |
| SpotifyService.GetTracksInfo | backend/app/services/spotify_service.py:132-140 | The lookups are asked for exactly the consecutive batches of 50. The results are concatenated in batch order. |
| SpotifyService.NaiveMeansUtc | backend/app/services/spotify_service.py:155-158 | A naive expiry time means the same instant as that time in UTC. |
| SpotifyService.GetAccessToken | backend/app/services/spotify_service.py:142-182 | No access row gives no token. A row without an expiry raises. Otherwise the newest row's token is used. Exactly when `now >= expires_at`, it is refreshed and the refreshed token and expiry are written back. |
| DiffSnapshots.LoadSnapshot | backend/app/tasks/diff_snapshots.py:127-141 | A snapshot loads exactly when the object exists and decompresses to JSON that is a track list. Then the result is that list. A missing object, an object that does not decompress, and JSON that is not a track list all give None. |
| DiffSnapshots.LoadAfterUpload | backend/app/tasks/diff_snapshots.py:127-141 | Loading a freshly uploaded snapshot returns the uploaded list. |
| DiffSnapshots.RemovedIdsSpec | backend/app/tasks/diff_snapshots.py:47-54 | An id is removed exactly when some previous entry has it and no latest entry does. |
| DiffSnapshots.RemovedIdsIgnoreDuplicates | backend/app/tasks/diff_snapshots.py:47-54 | Duplicating a previous entry does not change the removed set. |
| DiffSnapshots.RemovedIdsOrderFree | backend/app/tasks/diff_snapshots.py:47-54 | The removed set depends only on which entries each snapshot holds. Reordering or repeating the entries of either snapshot leaves it unchanged. |
| DiffSnapshots.CachedUpsertsSpec | backend/app/tasks/diff_snapshots.py:60-67 | Each cached row carries the job's start time. Each row is the row of a previous entry whose id was removed. Every such entry has a row with its name, artist, album and image. A removed id has exactly as many rows as previous entries carrying it, and any other id has none. |
| DiffSnapshots.CachedUpsertsFromRemoved | backend/app/tasks/diff_snapshots.py:60-67 | Each cached row is the row of some previous entry whose id was removed. |
| DiffSnapshots.CachedUpsertsCoverRemoved | backend/app/tasks/diff_snapshots.py:60-67 | Each previous entry whose id was removed has its cached row. |
| DiffSnapshots.CachedUpsertIds | backend/app/tasks/diff_snapshots.py:60-67 | The rows' track ids are the previous snapshot's ids, in snapshot order, with every id that was not removed dropped. |
| DiffSnapshots.CachedUpsertsCount | backend/app/tasks/diff_snapshots.py:60-67 | A removed id has as many cached rows as previous entries carrying it. Any other id has none. |
| DiffSnapshots.CachedUpsertsSnoc | backend/app/tasks/diff_snapshots.py:60-67 | One more previous entry adds its id to the rows' ids exactly when that id was removed. |
| DiffSnapshots.Guards | backend/app/tasks/diff_snapshots.py:14-88 | States each stop, in source order, with its exact outcome. No tracked playlist, fewer than two snapshots, or a None id returns. An unloadable or empty previous snapshot raises, and so does an unloadable latest one. No removals returns, and a missing image raises. A failed cache upsert or missing settings returns; missing access raises. Each of these stops writes nothing, except the last three, which keep the cache upsert. That happens only when both snapshots loaded, the removed set is not empty and every removed entry has an image. A run past every stop proceeds, with the cache upsert as its one write. |
| DiffSnapshots.NoRemovalsNoWrites | backend/app/tasks/diff_snapshots.py:56-58 | An empty removed set stops the job with no write. |
| DiffSnapshots.TrackUriRoundTrip | backend/app/tasks/diff_snapshots.py:122 | A URI is `spotify:track:` followed by the id, and the id is read back from it. |
| DiffSnapshots.EnumerateSet | backend/app/tasks/diff_snapshots.py:91-96 | Iterating the removed set lists each element exactly once. |
| DiffSnapshots.RecordRemovals | backend/app/tasks/diff_snapshots.py:90-123 | The deleted-song upsert comes first, on `track_id,user_id,playlist_id`. Then, with a stored mirror id, the URIs are added to it. Without one, a playlist is created; a failed creation returns; otherwise the new id is stored on the tracked row and the URIs are added there. |
| DiffSnapshots.DiffSnapshots | backend/app/tasks/diff_snapshots.py:14-123 | The whole task, with the client built as its constructor allows. It does what the guards decide, then what `RecordRemovals` writes. |
| DiffSnapshots.DeletedRowsOnePerId | backend/app/tasks/diff_snapshots.py:91-96 | There is exactly one deleted-song row per removed id. All rows share the job's start time, the user and the tracked playlist's id. |
| DiffSnapshots.UrisOfRemoved | backend/app/tasks/diff_snapshots.py:122-123 | Every removed id is sent as its URI, and nothing else is sent. |
| DiffSnapshots.DiffSnapshotsAsWritten | backend/app/tasks/diff_snapshots.py:87-88 | As written, every run past the guards raises when the client is built, and no deleted-song row is ever written. |
| DiffSnapshots.AsWrittenLosesRemoval | backend/app/tasks/diff_snapshots.py:47-88 | A concrete run that removes a track gets past every guard. |
| SongExpiry.PersistencePeriods | backend/app/tasks/check_song_expiry.py:70-75 | The windows are 30, 90, 180 and 365 days for exactly four settings, and "forever" is not one of them. |
| SongExpiry.ExpiryBoundary | backend/app/tasks/check_song_expiry.py:79-82 | A song removed exactly `days` days ago expires. One removed a second later does not. |
| SongExpiry.CollectExpired | backend/app/tasks/check_song_expiry.py:81-83 | The loop keeps exactly the songs at or before the threshold, in order. |
| SongExpiry.ExpiredSongsSpec | backend/app/tasks/check_song_expiry.py:81-83 | Each kept song is a candidate at or before the threshold, and every such candidate is kept. |
| SongExpiry.DeactivatedSpec | backend/app/tasks/check_song_expiry.py:103-105 | Exactly the listed rows become inactive. No other column and no other row changes. |
| SongExpiry.DeactivatedStep | backend/app/tasks/check_song_expiry.py:103-105 | Deactivating one more id is deactivating the union. |
| SongExpiry.DeletedSongsTable.Deactivate | backend/app/tasks/check_song_expiry.py:104-105 | `update active=False where id` applied to the table. |
| SongExpiry.DeactivateAll | backend/app/tasks/check_song_expiry.py:103-105 | After the loop, the table is the old table with exactly the expired ids deactivated. |
| SongExpiry.IdsOfSnoc | backend/app/tasks/check_song_expiry.py:103-105 | The ids of one more song are the old ids plus its id. |
| SongExpiry.CheckSongExpiry | backend/app/tasks/check_song_expiry.py:15-114 | No tracked playlist returns a message. Missing settings raise. "forever" returns. No active candidates raise. No expired song, including an unknown setting, says so. The mirror is touched only with `remove_from_playlist` and a stored mirror id, and then takes exactly the expired track ids. Missing access then raises. Every expired song, and only those, is deactivated, and both counts are reported. |
| SongExpiry.CheckSongExpiryAsWritten | backend/app/tasks/check_song_expiry.py:95-101 | As written, a mirrored expiry raises when the client is built, and every song stays active. |
| SongExpiry.AsWrittenKeepsExpiredSong | backend/app/tasks/check_song_expiry.py:77-86 | A song removed 31 days ago under a 30-day window, with mirroring on, is due for expiry. |
| TrackCache.FreshnessBoundary | frontend/src/app/api/tracks/route.ts:26-34 | A row updated exactly 7 days ago is stale, and one updated 1 ms later is fresh. A row never updated is stale. |
| TrackCache.UncachedIdsSpec | frontend/src/app/api/tracks/route.ts:29-41 | An id is uncached exactly when no fresh row has it. An uncached id keeps every one of its occurrences, and a fresh id keeps none. |
| TrackCache.UncachedIdsConcat | frontend/src/app/api/tracks/route.ts:39-41 | The uncached ids keep request order. The ids of a request split in two are those of the first part, followed by those of the second. |
| TrackCache.SmallestIndex | frontend/src/app/api/tracks/route.ts:65-71 | The reduce ends on an image of least effective width, the first such image, with a missing or zero width counting as `MAX_SAFE_INTEGER`. |
| TrackCache.SmallestImage | frontend/src/app/api/tracks/route.ts:60-73 | A missing or empty list gives null. Otherwise the result is the url of the first image of least width. |
| TrackCache.NewTracks | frontend/src/app/api/tracks/route.ts:47-54 | A record is built per upstream track, with its first artist, album name, smallest image and `now`. A track without an artist throws. |
| TrackCache.Post | frontend/src/app/api/tracks/route.ts:8-58 | A failed cache query gives a 500. The upstream is asked only when some id is uncached. A failed upstream lookup throws and builds no record. So does a track without an artist. Otherwise one record is built per track, and the body is exactly the uncached-id list. |
| TrackedPlaylistsForm.Lookup | frontend/src/components/settings/tracked-playlists.tsx:128 | A key reads nothing exactly when it is not in the record. |
| TrackedPlaylistsForm.Put | frontend/src/components/settings/tracked-playlists.tsx:59-72 | The keys become the old keys plus the key. Keys stay distinct. |
| TrackedPlaylistsForm.Remove | frontend/src/components/settings/tracked-playlists.tsx:247 | The keys become the old keys minus the key. Keys stay distinct. |
| TrackedPlaylistsForm.LookupPut | frontend/src/components/settings/tracked-playlists.tsx:59-72 | After a put, the key reads the new value and every other key reads what it read before. |
| TrackedPlaylistsForm.LookupRemove | frontend/src/components/settings/tracked-playlists.tsx:247 | After a remove, the key reads nothing and every other key reads what it read before. |
| TrackedPlaylistsForm.LookupIndex | frontend/src/components/settings/tracked-playlists.tsx:128 | A key that reads a value holds it at some position of the record. |
| TrackedPlaylistsForm.RemovePutFresh | frontend/src/components/settings/tracked-playlists.tsx:241-251 | Removing a key that was just added restores the record. |
| TrackedPlaylistsForm.DefaultValues | frontend/src/components/settings/tracked-playlists.tsx:59-72 | The default record's keys are distinct. |
| TrackedPlaylistsForm.DefaultValuesKeys | frontend/src/components/settings/tracked-playlists.tsx:59-72 | The default record has exactly the stored playlist ids as keys. |
| TrackedPlaylistsForm.DefaultValuesLast | frontend/src/components/settings/tracked-playlists.tsx:59-72 | A key holds the entry of the last row carrying it. |
| TrackedPlaylistsForm.DefaultValuesSpec | frontend/src/components/settings/tracked-playlists.tsx:59-72 | The record is keyed by `playlist_id`, and a later duplicate overwrites an earlier one. |
| TrackedPlaylistsForm.AfterTrackedCheckbox | frontend/src/components/settings/tracked-playlists.tsx:241-251 | Unchecking an entry whose id is null or absent unregisters it. Any other change sets only `active`. |
| TrackedPlaylistsForm.TrackedCheckboxEffect | frontend/src/components/settings/tracked-playlists.tsx:241-251 | Key by key: the other keys are untouched, and the entry's fields other than `active` are kept. |
| TrackedPlaylistsForm.CheckThenUncheck | frontend/src/components/settings/tracked-playlists.tsx:241-251 | Checking an untracked playlist and then unchecking it restores the record. |
| TrackedPlaylistsForm.TrackedPlaylistsFormState.constructor | frontend/src/components/settings/tracked-playlists.tsx:57-73 | The form starts from the default record. |
| TrackedPlaylistsForm.TrackedPlaylistsFormState.SetValue | frontend/src/components/settings/tracked-playlists.tsx:103 | `setValue` puts the entry under the key. |
| TrackedPlaylistsForm.TrackedPlaylistsFormState.OnUncheckedChange | frontend/src/components/settings/tracked-playlists.tsx:98-115 | Checking adds `id: null, active: true`, the playlist's id and name, `Removed - name` and `public: false`. Unchecking does nothing. |
| TrackedPlaylistsForm.TrackedPlaylistsFormState.OnTrackedCheckedChange | frontend/src/components/settings/tracked-playlists.tsx:241-251 | The checkbox rule applied to the form's values. |
| TrackedPlaylistsForm.SubmitPayload | frontend/src/components/settings/tracked-playlists.tsx:90-96 | There is one payload element per record value, in order. A stored id is passed on unchanged. A null or undefined id is sent as undefined. Every other field is unchanged. |
| TrackedPlaylistsForm.FirstIndex | frontend/src/components/settings/tracked-playlists.tsx:118-126 | The position of the first playlist with the id. |
| TrackedPlaylistsForm.FirstOccurrencesIds | frontend/src/components/settings/tracked-playlists.tsx:118-126 | De-duplication keeps exactly the set of ids of the input. |
| TrackedPlaylistsForm.FirstOccurrencesFirst | frontend/src/components/settings/tracked-playlists.tsx:118-126 | Each kept playlist is the first playlist of the input with its id. |
| TrackedPlaylistsForm.FirstOccurrencesOrdered | frontend/src/components/settings/tracked-playlists.tsx:118-126 | Kept playlists are in the order of their ids' first occurrences. |
| TrackedPlaylistsForm.FirstOccurrencesSpec | frontend/src/components/settings/tracked-playlists.tsx:117-126 | De-duplication keeps every id, each as its first occurrence, in order of first occurrence. |
| TrackedPlaylistsForm.FirstOccurrencesDistinct | frontend/src/components/settings/tracked-playlists.tsx:117-126 | No two kept playlists share an id. |
| TrackedPlaylistsForm.FirstOccurrencesSnoc | frontend/src/components/settings/tracked-playlists.tsx:120-125 | One step of the filter: a seen id is dropped, and a new one is kept and remembered. |
| TrackedPlaylistsForm.SortedPlaylists | frontend/src/components/settings/tracked-playlists.tsx:117-134 | The filter with its seen-set, followed by the stable tracked-first sort. |
| TrackedPlaylistsForm.SortedPlaylistsSpec | frontend/src/components/settings/tracked-playlists.tsx:117-134 | The output is a permutation of the de-duplicated list. Tracked playlists come first, and each group keeps its order. |
| TrackedPlaylistsForm.RowImageIndex | frontend/src/components/settings/tracked-playlists.tsx:203-209 | The choice moves only to an image with a truthy width. A falsy first width pins it to the first image. Otherwise it is the first image of least width among those with a truthy width; widths 10, 0, 5 pick the third. |
| TrackedPlaylistsForm.RowImage | frontend/src/components/settings/tracked-playlists.tsx:197-211 | A missing or empty list gives null. Otherwise the result is the image the reduce ends on. |
| TrackedPlaylistsForm.RowImageAgreesWithTrackRoute | frontend/src/components/settings/tracked-playlists.tsx:197-211 | With every width truthy, the form's selector and the track route's selector agree. A falsy first width always gives the first image. |
| PlaylistsRoute.PageOffsets | frontend/src/app/api/settings/playlists/route.ts:25-34 | The requested offsets start at the first page's offset. |
| PlaylistsRoute.PageOffsetsStride | frontend/src/app/api/settings/playlists/route.ts:28-31 | Offsets are `limit` apart. Another page is asked for exactly while `total > offset + limit`. |
| PlaylistsRoute.FetchStep | frontend/src/app/api/settings/playlists/route.ts:29-33 | A further page starts at `offset + limit` and extends the collected prefix of the list. |
| PlaylistsRoute.FetchFirst | frontend/src/app/api/settings/playlists/route.ts:25-26 | The first page is the start of the list. |
| PlaylistsRoute.FetchDone | frontend/src/app/api/settings/playlists/route.ts:28 | When no further page is reported, the whole list has been collected. |
| PlaylistsRoute.FetchAllPlaylists | frontend/src/app/api/settings/playlists/route.ts:23-34 | The loop collects the whole list, in order, asking for exactly the offsets `PageOffsets` gives. |
| PlaylistsRoute.Get | frontend/src/app/api/settings/playlists/route.ts:6-87 | No user gives a 401 with no upstream call. Otherwise the response is Liked Songs followed by the kept playlists, non-owned first. |
| PlaylistsRoute.ListedPlaylistsSpec | frontend/src/app/api/settings/playlists/route.ts:36-48 | A playlist is listed exactly when it is owned or is "On Repeat" or "Release Radar", as often as upstream lists it. Non-owned playlists come before owned ones, and each group keeps its order. |
| UpdateTrackedPlaylists.Partition | frontend/src/components/settings/actions/updateTrackedPlaylists.ts:28-49 | Entries with a null or absent id become inserts without the id. The rest become updates. The user id is set on both, and order is kept. |
| UpdateTrackedPlaylists.PartitionSplits | frontend/src/components/settings/actions/updateTrackedPlaylists.ts:28-49 | Every entry lands in exactly one of the two lists. |
| UpdateTrackedPlaylists.SendUpdates | frontend/src/components/settings/actions/updateTrackedPlaylists.ts:66-87 | Every update is sent. Success holds exactly when none fails; otherwise the result is "Error updating one or more playlists". |
| UpdateTrackedPlaylists.UpdateTrackedPlaylists | frontend/src/components/settings/actions/updateTrackedPlaylists.ts:11-88 | No user gives a 401 with no write. An insert error returns its message before any update. Otherwise all updates follow the insert. |
| UpdateTrackedPlaylists.CheckedPlaylistIsInserted | frontend/src/components/settings/actions/updateTrackedPlaylists.ts:33-43 | A playlist checked in the form and saved is inserted with the form's defaults. |
| DeleteUserData.SingleOutcome | frontend/src/components/settings/actions/deleteUserData.ts:90-120 | A category is skipped when not asked for. Otherwise it is a success exactly when its delete returned no error, and an error with its message when it did. |
| DeleteUserData.SnapshotsOutcome | frontend/src/components/settings/actions/deleteUserData.ts:61-88 | The snapshot category succeeds exactly when both deletes succeed. The storage error takes precedence. |
| DeleteUserData.DeleteUserData | frontend/src/components/settings/actions/deleteUserData.ts:37-126 | No user gives a 401 with no deletion. Otherwise each category's status is as above. The row delete is skipped after a storage error. The response is 200 whatever the outcomes. |
| AuthEmailRateLimit.Window | frontend/src/components/auth/send-authorization-email.ts:21-29 | No cookie, or a window more than a day old, gives `count 0, timestamp now`. Otherwise the cookie's state is used. |
| AuthEmailRateLimit.Step | frontend/src/components/auth/send-authorization-email.ts:13-59 | A missing recipient throws with the cookie unread. A count of 3 or more refuses. A throwing send fails with the cookie unchanged. A send raises the count by one and keeps the timestamp. |
| AuthEmailRateLimit.CookieStore.SendAuthorizationEmail | frontend/src/components/auth/send-authorization-email.ts:13-59 | The action on the cookie store does exactly what `Step` says. |
| AuthEmailRateLimit.StepKeepsCap | frontend/src/components/auth/send-authorization-email.ts:32-45 | A cookie that was written never counts above 3. |
| AuthEmailRateLimit.AtMostThreePerWindow | frontend/src/components/auth/send-authorization-email.ts:27-45 | Within a day of a window's start, at most `3 - count` emails go out, and the cookie counts each one. |
| AuthEmailRateLimit.NoRecipientNoChange | frontend/src/components/auth/send-authorization-email.ts:17-19 | Without a recipient, no call sends anything or changes the cookie. |
| AuthEmailRateLimit.WindowBoundary | frontend/src/components/auth/send-authorization-email.ts:27-34 | At the cap, a call exactly a day after the window opened is refused, and a call 1 ms later is sent. |
| SessionMiddleware.UpdateSession | frontend/src/lib/supabase/middleware.ts:42-67 | Signed out on home passes. Signed in on home goes to `/dashboard`. Signed out elsewhere, except auth pages, goes to `/login?redirect=path`. Everything else passes. |
| SessionMiddleware.RedirectTargetPasses | frontend/src/lib/supabase/middleware.ts:53-67 | A redirect's target passes with the same session, and only signed-in users are sent to the dashboard. |
| UserDropdown.RunEnd | frontend/src/components/dashboard/user-dropdown.tsx:38 | A run of equal characters ends where the character first changes. |
| UserDropdown.RepeatingPatternsAreRuns | frontend/src/components/dashboard/user-dropdown.tsx:38 | The number of matches of `/(.)\1+/g` is the number of maximal runs of length two or more. |
| UserDropdown.IsLikelyRandomId | frontend/src/components/dashboard/user-dropdown.tsx:21-78 | The rules are applied in order and the first to match decides. The result is "random" exactly when: no special character, and either all digits, or the 28-character id shape, or at most 2 runs together with a digit share above 40% (or a long mixed-case string that matches no username pattern). |
| UserDropdown.WordWordIsJustLetters | frontend/src/components/dashboard/user-dropdown.tsx:57-61 | Once separators are rejected, the word-word pattern only matches plain letters. |
| UserDropdown.SpotifyIdsAreRandom | frontend/src/components/dashboard/user-dropdown.tsx:28-35 | Every 28-character id of lowercase letters and digits is classified as random. |
| UserDropdown.LetterNamesAreShown | frontend/src/components/dashboard/user-dropdown.tsx:38-70 | A letters-only name without the id shape and with at most 2 runs is a common username. |
| UserDropdown.DisplayId | frontend/src/components/dashboard/user-dropdown.tsx:83-86 | The email is shown exactly when the provider id is classified as random. |
| RecentlyDeleted.CeilDiv | frontend/src/components/dashboard/recently-deleted.tsx:88 | The result is `Math.ceil(n / d)`. |
| RecentlyDeleted.SliceIndex | frontend/src/components/dashboard/recently-deleted.tsx:51-54 | A `slice` bound is clamped into the array. |
| RecentlyDeleted.PageSlice | frontend/src/components/dashboard/recently-deleted.tsx:45-54 | Page p shows `data[(p-1)·10, min(p·10, n))`, never more than 10 rows. It is empty past the end. |
| RecentlyDeleted.RowOnPage | frontend/src/components/dashboard/recently-deleted.tsx:51-54 | Row i is row `i mod 10` of page `i div 10 + 1`. |
| RecentlyDeleted.Render | frontend/src/components/dashboard/recently-deleted.tsx:47-54 | Loading, then error, then empty state for missing or empty data, then the page's rows. |
| RecentlyDeleted.Pager.constructor | frontend/src/components/dashboard/recently-deleted.tsx:44 | The pager starts on page 1. |
| RecentlyDeleted.Pager.Previous | frontend/src/components/dashboard/recently-deleted.tsx:81 | `p := max(p - 1, 1)`, which keeps p between 1 and the page count. |
| RecentlyDeleted.Pager.Next | frontend/src/components/dashboard/recently-deleted.tsx:91-98 | `p := min(p + 1, pageCount)`, which keeps p between 1 and the page count. |
| RecentlyDeleted.AsWrittenPageCount | frontend/src/components/dashboard/recently-deleted.tsx:86-101 | As written, the page count is 5 whatever the fetched data holds. |
| RecentlyDeleted.AsWrittenHidesRows | frontend/src/components/dashboard/recently-deleted.tsx:51-101 | With that count, no reachable page shows a row past the fiftieth. With 12 rows, pages 3 to 5 are empty. |
| RecentlyDeleted.PageCount | frontend/src/components/dashboard/recently-deleted.tsx:88 | The fetched rows' own count: the least c with n ≤ 10·c. |
| RecentlyDeleted.EveryRowReachable | frontend/src/components/dashboard/recently-deleted.tsx:51-101 | With that count, every row is on a reachable page and every reachable page shows a row. |
| LoginErrorHandler.FirstQuoted | frontend/src/components/landing-page/error-handler.tsx:27-28 | The text between the first two double quotes, or nothing when there are not two. |
| LoginErrorHandler.FirstQuotedRoundTrip | frontend/src/components/landing-page/error-handler.tsx:27-28 | A quoted email is read back exactly. |
| LoginErrorHandler.AppErrorHandler | frontend/src/components/landing-page/error-handler.tsx:18-40 | Nothing is thrown without a truthy `error`. The description defaults to "Error Signing In". A LoginError with digest `SPOTIFY_APP_AUTHORIZATION` and the quoted email is thrown exactly when the description ends in "not authorized". Otherwise a plain Error with the description is thrown. |
| Strings.EndsWithAppend | frontend/src/components/landing-page/error-handler.tsx:26 | A string ends with what was appended to it. |
| LoginErrorHandler.NotAuthorizedCarriesEmail | frontend/src/components/landing-page/error-handler.tsx:26-34 | A refusal naming the account in quotes throws the dedicated error carrying that email. |
| LoginErrorHandler.MissingDescriptionIsDefault | frontend/src/components/landing-page/error-handler.tsx:23-37 | Without a description, the plain default error is thrown. |
| AuthErrorHandler.HashBody | frontend/src/components/auth/auth-error-handler.tsx:13 | The fragment without its first character. |
| AuthErrorHandler.SplitOn | frontend/src/components/auth/auth-error-handler.tsx:15 | Splitting at a character gives pieces without that character, which join back to the input. |
| AuthErrorHandler.QueryBody | frontend/src/components/auth/auth-error-handler.tsx:15 | `URLSearchParams` drops one leading `?` from its input, and keeps every other input whole. |
| AuthErrorHandler.LeadingQuestionMarkIgnored | frontend/src/components/auth/auth-error-handler.tsx:15 | A query with one `?` in front parses to the same pairs as the query alone. |
| AuthErrorHandler.SplitOnAbsent | frontend/src/components/auth/auth-error-handler.tsx:15 | A query with no `&` is a single piece. |
| AuthErrorHandler.FirstEquals | frontend/src/components/auth/auth-error-handler.tsx:15 | A piece `name=value` with no `=` in the name splits right after the name. |
| AuthErrorHandler.PairLacks | frontend/src/components/auth/auth-error-handler.tsx:15 | A character other than `=` that is in neither the name nor the value is not in `name=value`. |
| AuthErrorHandler.SinglePair | frontend/src/components/auth/auth-error-handler.tsx:15 | One `name=value` piece parses to the single pair of the decoded name and the decoded value. |
| AuthErrorHandler.QuestionFragmentReportsError | frontend/src/components/auth/auth-error-handler.tsx:13-16 | A fragment `#?error=…` yields its decoded `error` value, so the `?` does not hide the error. |
| AuthErrorHandler.Get | frontend/src/components/auth/auth-error-handler.tsx:16-17 | `get` gives the first value under the name, or nothing when no pair has that name. |
| AuthErrorHandler.PrefixBefore | frontend/src/components/auth/auth-error-handler.tsx:18 | `split(sep)[0]` is the prefix up to the first occurrence of `sep`, or all of the string. |
| AuthErrorHandler.PlusToSpace | frontend/src/components/auth/auth-error-handler.tsx:18 | Each `+` becomes a space and every other character is unchanged. |
| AuthErrorHandler.CleanErrorSpec | frontend/src/components/auth/auth-error-handler.tsx:18 | The shown error is the description up to the first `%3A`, with each `+` a space. |
| AuthErrorHandler.ExtendErrorMessage | frontend/src/components/auth/auth-error-handler.tsx:30-38 | The spam-folder hint is appended exactly when the message contains "confirmation email has been sent". |
| AuthErrorHandler.ExtendKeepsMessage | frontend/src/components/auth/auth-error-handler.tsx:30-38 | The hint is added after the message and never replaces it. The message grows exactly when it contains the phrase. |
| AuthErrorHandler.AuthErrorState.constructor | frontend/src/components/auth/auth-error-handler.tsx:8 | The state starts undefined. |
| AuthErrorHandler.AuthErrorState.ReadHash | frontend/src/components/auth/auth-error-handler.tsx:12-26 | The fragment after `#` is read as `URLSearchParams` reads it, a leading `?` included. A truthy `error` sets the cleaned description, or undefined when there is none. Otherwise a set error is cleared. |
| AuthErrorHandler.AuthErrorState.Shown | frontend/src/components/auth/auth-error-handler.tsx:28-42 | Nothing is shown for a falsy error. Otherwise the extended message is shown. |
| BaseRedirectUri.GetBaseRedirectUri | frontend/src/lib/get-base-redirect-uri.ts:1-14 | The site URL wins when truthy, then the deployment URL, then the base URL, each behind `https://`. Otherwise the result is `http://localhost:3001`. |
| BaseRedirectUri.SecureIffConfigured | frontend/src/lib/get-base-redirect-uri.ts:2-13 | The result is `https://…` exactly when some variable is non-empty, and an empty value counts as unset. |

## Left out

**Services, transport and encoding**

- Database, object storage, streaming-service, mail-service and session calls are not modelled. Their answers are parameters, and the writes and calls are outputs.
- gzip and JSON encoding are not modelled. A stored object either is a track list or fails to decode.
- LoadSnapshot: JSON that decompresses but is not a track list is treated as a load failure. In the source, `load_snapshot` returns any parsed JSON (backend/app/tasks/diff_snapshots.py:136-138). A latest snapshot holding an empty object `{}` is then iterated as an empty collection at backend/app/tasks/diff_snapshots.py:48. The job would go on with an empty latest id set, where the model raises `LatestUnloadable`. Other non-list JSON, such as a number or a list whose elements have no `id`, raises in both.
- The create-playlist and add-tracks calls at backend/app/tasks/diff_snapshots.py:108-111 and 123 are modelled as effects with the intended arguments. The source passes arguments that the client's methods do not take (backend/app/services/spotify_service.py:20-28).
- The removed-tracks call at backend/app/tasks/check_song_expiry.py:100-101 is modelled as the mirror output. The client has no method of that name.
- The `remove_from_playlist` setting is read at backend/app/tasks/check_song_expiry.py:86 but is missing from the settings model. The model takes it as an input flag.

**Known mismatches in the data**

- A snapshot entry's image is optional. The loops write none (backend/app/services/spotify_service.py:53-59), while the diff reads one (backend/app/tasks/diff_snapshots.py:65) and raises without it (`MissingImage`).
- The track route builds new cache records from the upstream tracks but never stores them or answers with them (frontend/src/app/api/tracks/route.ts:47-57). `TrackCache.Post` returns them as an output, so their contents can be stated.
- The cache query filters its rows by `id` (frontend/src/app/api/tracks/route.ts:16). The model takes the query's answer as given and keys freshness on `track_id`, as line 37 does.

**Dates, text encoding and ordering**

- Date parsing, ISO formatting and time zones are not modelled. Timestamps are integers. An aware expiry time is its local seconds minus its offset.
- Percent-decoding and `+`-decoding by the URL search-params parser are not modelled. They are a `decode` parameter applied to each name and value.
- Python set iteration order is left open. `EnumerateSet` fixes one order, and the rows and the URIs share it.
- JavaScript objects put integer-like keys before other keys. The model keeps every key of the form record in insertion order.

**Framework behaviour**

- The `setTimeout` that defers `setValue` in `onUncheckedChange` is not modelled. The update is applied at once.
- The form library's validation and dirtiness tracking are not modelled.
- The cookie's JSON parsing, its `maxAge` expiry in the browser and its flags are not modelled.
- A mail-service answer that carries an error without throwing counts as sent, as in the source.
- The dropdown's provider id may be undefined when no user is loaded. The model takes a string.
- Rendering, JSX, console and print logging, the retry buttons and router navigation are not modelled.

**Snapshot-to-row plumbing**

- `take_snapshot`, which inserts the 'Library Snapshots' rows, is not part of this model. So the link between an uploaded file name and the row's `snapshot_id` is an input.
- `LoadAfterUpload` states the round trip for any key.

**Deliberate simplifications**

- `GetUserPlaylistSongs`, `GetUserLikedSongs` and `CollectTracks` require every upstream item to name an artist. The source raises on an item without one (backend/app/services/spotify_service.py:56, 103), and the model leaves that raise out.
- `FetchAllPlaylists` requires a positive page size. The streaming service always answers with one.

## Findings

| source | as written | input that shows it | evidently intended | confidence | as-written member | corrected member |
|---|---|---|---|---|---|---|
| backend/app/tasks/diff_snapshots.py:88 | `SpotifyService(spotify_access)` is called although `__init__` takes no argument besides `self` (backend/app/services/spotify_service.py:11). This raises a TypeError after the cache upsert. | A previous snapshot [A] and a latest snapshot [B], with settings and an access row present. The guards pass, and the job raises before any 'Deleted Songs' row or mirror add. | Build the client and go on to record one deleted-song row per removed id and add their URIs to the mirror playlist. | not executed | DiffSnapshots.DiffSnapshotsAsWritten, DiffSnapshots.AsWrittenLosesRemoval | DiffSnapshots.DiffSnapshots |
| backend/app/tasks/check_song_expiry.py:97 | The same constructor call is made whenever mirror removal is on, before any deactivation. | A song removed 31 days ago under "30 days", with `remove_from_playlist` set and a stored mirror id. The job raises and the song stays active. | Remove the expired tracks from the mirror and mark every expired song inactive. | not executed | SongExpiry.CheckSongExpiryAsWritten, SongExpiry.AsWrittenKeepsExpiredSong | SongExpiry.CheckSongExpiry |
| frontend/src/components/dashboard/recently-deleted.tsx:88-100 | The page count is taken from the 50-element placeholder list, not from the fetched rows. | With 60 fetched rows, rows 51-60 are on no reachable page. With 12 rows, pages 3-5 are empty tables. | A page count of ⌈n/10⌉ over the fetched rows. | not executed | RecentlyDeleted.AsWrittenPageCount, RecentlyDeleted.AsWrittenHidesRows | RecentlyDeleted.PageCount, RecentlyDeleted.EveryRowReachable |
