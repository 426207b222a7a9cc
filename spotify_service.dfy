/** The backend's client of the streaming service: the paging loops that
    collect a playlist or the saved tracks into a snapshot and upload it, the
    batched track lookup, the snapshot file names and the token-expiry test.
    The HTTP calls are replaced by a list-backed page source and by function
    parameters; the storage bucket is an object whose map the upload updates. */
module SpotifyService {
  import opened Math
  import opened Wrappers
  import opened Sequences
  import opened Strings
  import opened SpotifyApi

  /** Page size of the playlist-tracks loop. */
  const PLAYLIST_PAGE_LIMIT: nat := 100
  /** Page size of the saved-tracks loop. */
  const LIKED_PAGE_LIMIT: nat := 50
  /** Number of ids per batched track lookup. */
  const TRACKS_BATCH_SIZE: nat := 50

  /** One element of a stored snapshot. The paging loops never write an
      image; the diff task reads one, so the field is optional: None stands
      for an entry without an `image` key. */
  datatype SnapshotEntry = SnapshotEntry(
    id: string,
    name: string,
    artist: string,
    album: string,
    addedAt: string,
    image: Option<string>)

  /** The JSON document inside a stored object, and the object itself:
      gzip and JSON are opaque, so an object either decodes to a track list
      or fails to decompress or to parse. */
  datatype Json = TrackList(entries: seq<SnapshotEntry>) | OtherJson
  datatype Blob = Gzip(json: Json) | NotGzip

  /** The storage bucket that holds the compressed snapshots. */
  class SnapshotBucket {
    var objects: map<string, Blob>

    constructor (objects: map<string, Blob>)
      ensures this.objects == objects
    {
      this.objects := objects;
    }

    /** Stores `data` under `path`; `succeeds` is the storage service's answer. */
    method Upload(path: string, data: Blob, succeeds: bool) returns (ok: bool)
      modifies this
      ensures ok == succeeds
      ensures objects == if succeeds then old(objects)[path := data] else old(objects)
    {
      ok := succeeds;
      if succeeds {
        objects := objects[path := data];
      }
    }
  }

  /** Every upstream item names at least one artist (the loops read the first). */
  predicate AllHaveArtists(items: seq<TrackItem>) {
    forall i :: 0 <= i < |items| ==> |items[i].track.artists| > 0
  }

  /** The snapshot entry built from one upstream item. */
  function Shape(item: TrackItem): SnapshotEntry
    requires |item.track.artists| > 0
  {
    SnapshotEntry(item.track.id, item.track.name, item.track.artists[0].name,
                  item.track.album.name, item.addedAt, None)
  }

  /** The entries built from the items, in order. */
  function ShapeAll(items: seq<TrackItem>): (r: seq<SnapshotEntry>)
    requires AllHaveArtists(items)
    ensures |r| == |items|
  {
    if |items| == 0 then []
    else ShapeAll(items[..|items| - 1]) + [Shape(items[|items| - 1])]
  }

  /** Entry i of a snapshot is the entry built from item i: its id, name,
      first artist, album and addition time, and no image. */
  lemma {:induction false} ShapeAllAt(items: seq<TrackItem>, i: int)
    requires AllHaveArtists(items)
    requires 0 <= i < |items|
    ensures ShapeAll(items)[i] == Shape(items[i])
    decreases |items|
  {
    if i < |items| - 1 {
      ShapeAllAt(items[..|items| - 1], i);
    }
  }

  /** The page `offset, limit` of a list-backed upstream listing. */
  function Page(upstream: seq<TrackItem>, offset: nat, limit: nat): seq<TrackItem> {
    if offset >= |upstream| then [] else upstream[offset..Min(offset + limit, |upstream|)]
  }

  /** A page is empty exactly when the offset is past the end; otherwise it
      holds the items from the offset up to the limit or the end. */
  lemma PageShape(upstream: seq<TrackItem>, offset: nat, limit: nat)
    requires limit > 0
    ensures |Page(upstream, offset, limit)| == 0 <==> offset >= |upstream|
    ensures offset < |upstream| ==>
              && |Page(upstream, offset, limit)| == Min(offset + limit, |upstream|) - offset
              && forall j :: 0 <= j < |Page(upstream, offset, limit)| ==>
                   Page(upstream, offset, limit)[j] == upstream[offset + j]
  {
  }

  /** The entries of two lists of items, one after the other. */
  lemma {:induction false} ShapeAllConcat(a: seq<TrackItem>, b: seq<TrackItem>)
    requires AllHaveArtists(a) && AllHaveArtists(b)
    ensures AllHaveArtists(a + b)
    ensures ShapeAll(a + b) == ShapeAll(a) + ShapeAll(b)
    decreases |b|
  {
    assert AllHaveArtists(a + b) by {
      forall i | 0 <= i < |a + b|
        ensures |(a + b)[i].track.artists| > 0
      {
        if i >= |a| {
          assert (a + b)[i] == b[i - |a|];
        }
      }
    }
    if |b| == 0 {
      assert a + b == a;
    } else {
      var init := b[..|b| - 1];
      assert (a + b)[..|a + b| - 1] == a + init;
      assert (a + b)[|a + b| - 1] == b[|b| - 1];
      ShapeAllConcat(a, init);
    }
  }

  /** The inner loop of a page: append one entry per item, in order. */
  method AppendEntries(allTracks: seq<SnapshotEntry>, items: seq<TrackItem>)
    returns (r: seq<SnapshotEntry>)
    requires AllHaveArtists(items)
    ensures r == allTracks + ShapeAll(items)
  {
    r := allTracks;
    for j := 0 to |items|
      invariant r == allTracks + ShapeAll(items[..j])
    {
      assert items[..j + 1][..j] == items[..j];
      r := r + [Shape(items[j])];
    }
    assert items[..|items|] == items;
  }

  /** The offsets the paging loop asks for, starting at `from`: one per
      non-empty page and the final one past the end, whose page is empty. */
  function Offsets(total: nat, limit: nat, from: nat): (r: seq<nat>)
    requires limit > 0
    ensures |r| > 0 && r[0] == from
    decreases total - from
  {
    if from >= total then [from] else [from] + Offsets(total, limit, from + limit)
  }

  /** The offsets are `limit` apart, all but the last fall inside the list
      and the last one is past its end. */
  lemma {:induction false} OffsetsStride(total: nat, limit: nat, from: nat)
    requires limit > 0
    ensures var r := Offsets(total, limit, from);
            && (forall k :: 0 <= k < |r| - 1 ==> r[k + 1] == r[k] + limit && r[k] < total)
            && r[|r| - 1] >= total
    decreases total - from
  {
    if from < total {
      OffsetsStride(total, limit, from + limit);
    }
  }

  /** `done` are the offsets asked for so far and `offset` is the next one. */
  predicate Pending(done: seq<nat>, total: nat, limit: nat, offset: nat)
    requires limit > 0
  {
    done + Offsets(total, limit, offset) == Offsets(total, limit, 0)
  }

  /** One step of the loop: asking for `offset` inside the list leaves the
      offsets from the next page onwards to be asked for. */
  lemma OffsetsStep(done: seq<nat>, total: nat, limit: nat, offset: nat)
    requires limit > 0 && offset < total
    requires Pending(done, total, limit, offset)
    ensures Pending(done + [offset], total, limit, offset + limit)
  {
    assert Offsets(total, limit, offset) == [offset] + Offsets(total, limit, offset + limit);
  }

  /** Once the offset is past the end, the last request completes the list. */
  lemma OffsetsDone(done: seq<nat>, total: nat, limit: nat, offset: nat)
    requires limit > 0 && offset >= total
    requires Pending(done, total, limit, offset)
    ensures done + [offset] == Offsets(total, limit, 0)
  {
  }

  /** The entries of the items before a non-empty page, followed by the
      entries of the page, are the entries of the items up to its end. */
  lemma ShapePage(upstream: seq<TrackItem>, offset: nat, limit: nat)
    requires limit > 0 && offset < |upstream|
    requires AllHaveArtists(upstream)
    ensures AllHaveArtists(Page(upstream, offset, limit))
    ensures ShapeAll(upstream[..offset]) + ShapeAll(Page(upstream, offset, limit))
            == ShapeAll(upstream[..Min(offset + limit, |upstream|)])
  {
    assert upstream[..offset] + Page(upstream, offset, limit) == upstream[..Min(offset + limit, |upstream|)];
    ShapeAllConcat(upstream[..offset], Page(upstream, offset, limit));
  }

  /** The paging loop shared by both snapshot methods: request pages at
      offsets 0, limit, 2*limit, ... until the first empty page, append one
      entry per item and count the items. `requests` are the offsets asked for. */
  method CollectTracks(upstream: seq<TrackItem>, limit: nat)
    returns (allTracks: seq<SnapshotEntry>, totalTracks: nat, requests: seq<nat>)
    requires limit > 0
    requires AllHaveArtists(upstream)
    ensures allTracks == ShapeAll(upstream)
    ensures totalTracks == |upstream|
    ensures requests == Offsets(|upstream|, limit, 0)
  {
    allTracks, totalTracks, requests := [], 0, [];
    var offset: nat := 0;
    ghost var seen: nat := 0;
    while true
      invariant Pending(requests, |upstream|, limit, offset)
      invariant seen == Min(offset, |upstream|)
      invariant allTracks == ShapeAll(upstream[..seen])
      invariant totalTracks == seen
      decreases |upstream| - seen
    {
      var results := Page(upstream, offset, limit);
      PageShape(upstream, offset, limit);
      ghost var asked := requests;
      requests := requests + [offset];
      if |results| == 0 {
        OffsetsDone(asked, |upstream|, limit, offset);
        break;
      }
      OffsetsStep(asked, |upstream|, limit, offset);
      ghost var next := Min(offset + limit, |upstream|);
      ShapePage(upstream, offset, limit);
      allTracks := AppendEntries(allTracks, results);
      totalTracks := totalTracks + |results|;
      offset := offset + limit;
      seen := next;
    }
    assert upstream[..|upstream|] == upstream;
  }

  /** `{user_id}/snapshot_{playlist_id}_{timestamp}.json.gz` */
  function PlaylistSnapshotFileName(userId: string, playlistId: string, timestamp: nat): string {
    userId + "/snapshot_" + playlistId + "_" + NatToString(timestamp) + ".json.gz"
  }

  /** `{user_id}/snapshot_liked_{timestamp}.json.gz` */
  function LikedSnapshotFileName(userId: string, timestamp: nat): string {
    userId + "/snapshot_liked_" + NatToString(timestamp) + ".json.gz"
  }

  /** Snapshots of one playlist taken at different seconds get different
      storage keys, so no upload overwrites an earlier snapshot. */
  lemma PlaylistFileNamesDistinct(userId: string, playlistId: string, t1: nat, t2: nat)
    requires t1 != t2
    ensures PlaylistSnapshotFileName(userId, playlistId, t1) != PlaylistSnapshotFileName(userId, playlistId, t2)
  {
    if PlaylistSnapshotFileName(userId, playlistId, t1) == PlaylistSnapshotFileName(userId, playlistId, t2) {
      CancelAround(userId + "/snapshot_" + playlistId + "_", NatToString(t1), NatToString(t2), ".json.gz");
      NatToStringInjective(t1, t2);
    }
  }

  /** The same for the saved-tracks snapshots. */
  lemma LikedFileNamesDistinct(userId: string, t1: nat, t2: nat)
    requires t1 != t2
    ensures LikedSnapshotFileName(userId, t1) != LikedSnapshotFileName(userId, t2)
  {
    if LikedSnapshotFileName(userId, t1) == LikedSnapshotFileName(userId, t2) {
      CancelAround(userId + "/snapshot_liked_", NatToString(t1), NatToString(t2), ".json.gz");
      NatToStringInjective(t1, t2);
    }
  }

  /** `get_user_playlist_songs`: collect the playlist 100 items at a time,
      upload the encoded list under the playlist file name and return that
      name with the item count. A failed upload re-raises (None here) and
      leaves the bucket as it was. */
  method GetUserPlaylistSongs(bucket: SnapshotBucket, upstream: seq<TrackItem>, userId: string,
                              playlistId: string, timestamp: nat, uploadSucceeds: bool)
    returns (result: Option<(string, nat)>)
    requires AllHaveArtists(upstream)
    modifies bucket
    ensures uploadSucceeds ==>
              && result == Some((PlaylistSnapshotFileName(userId, playlistId, timestamp), |upstream|))
              && bucket.objects == old(bucket.objects)[result.value.0 := Gzip(TrackList(ShapeAll(upstream)))]
    ensures !uploadSucceeds ==> result == None && bucket.objects == old(bucket.objects)
  {
    var fileName := PlaylistSnapshotFileName(userId, playlistId, timestamp);
    var allTracks, totalTracks, _ := CollectTracks(upstream, PLAYLIST_PAGE_LIMIT);
    var ok := bucket.Upload(fileName, Gzip(TrackList(allTracks)), uploadSucceeds);
    if !ok {
      return None;
    }
    result := Some((fileName, totalTracks));
  }

  /** `get_user_liked_songs`: the same loop over the saved tracks, 50 at a time. */
  method GetUserLikedSongs(bucket: SnapshotBucket, upstream: seq<TrackItem>, userId: string,
                           timestamp: nat, uploadSucceeds: bool)
    returns (result: Option<(string, nat)>)
    requires AllHaveArtists(upstream)
    modifies bucket
    ensures uploadSucceeds ==>
              && result == Some((LikedSnapshotFileName(userId, timestamp), |upstream|))
              && bucket.objects == old(bucket.objects)[result.value.0 := Gzip(TrackList(ShapeAll(upstream)))]
    ensures !uploadSucceeds ==> result == None && bucket.objects == old(bucket.objects)
  {
    var fileName := LikedSnapshotFileName(userId, timestamp);
    var allTracks, totalTracks, _ := CollectTracks(upstream, LIKED_PAGE_LIMIT);
    var ok := bucket.Upload(fileName, Gzip(TrackList(allTracks)), uploadSucceeds);
    if !ok {
      return None;
    }
    result := Some((fileName, totalTracks));
  }

  /** The id lists of the batched lookup: consecutive slices of at most 50. */
  function Batches(ids: seq<string>): seq<seq<string>>
    decreases |ids|
  {
    if |ids| == 0 then []
    else [ids[..Min(TRACKS_BATCH_SIZE, |ids|)]] + Batches(ids[Min(TRACKS_BATCH_SIZE, |ids|)..])
  }

  /** The batches cover the ids exactly once, in order. */
  lemma {:induction false} BatchesFlatten(ids: seq<string>)
    ensures Flatten(Batches(ids)) == ids
    decreases |ids|
  {
    if |ids| > 0 {
      var n := Min(TRACKS_BATCH_SIZE, |ids|);
      BatchesFlatten(ids[n..]);
      FlattenPrepend(ids[..n], Batches(ids[n..]));
      assert ids[..n] + ids[n..] == ids;
    }
  }

  /** Every batch holds between 1 and 50 ids, so no lookup is empty or
      over the upstream limit, and there are ceil(n / 50) of them. */
  lemma {:induction false} BatchesSizes(ids: seq<string>)
    ensures forall k :: 0 <= k < |Batches(ids)| ==> 0 < |Batches(ids)[k]| <= TRACKS_BATCH_SIZE
    ensures |Batches(ids)| == (|ids| + TRACKS_BATCH_SIZE - 1) / TRACKS_BATCH_SIZE
    decreases |ids|
  {
    if |ids| > 0 {
      var n := Min(TRACKS_BATCH_SIZE, |ids|);
      BatchesSizes(ids[n..]);
      var rest := Batches(ids[n..]);
      assert Batches(ids) == [ids[..n]] + rest;
      forall k | 0 <= k < |Batches(ids)|
        ensures 0 < |Batches(ids)[k]| <= TRACKS_BATCH_SIZE
      {
        if k > 0 {
          assert Batches(ids)[k] == rest[k - 1];
        }
      }
    }
  }

  /** The batches of a suffix starting at `i`: the slice of at most 50 ids
      there, then the batches of what follows it. */
  lemma BatchesFrom(ids: seq<string>, i: nat)
    requires i < |ids|
    ensures Batches(ids[i..]) == [ids[i..Min(i + TRACKS_BATCH_SIZE, |ids|)]] + Batches(ids[Min(i + TRACKS_BATCH_SIZE, |ids|)..])
  {
    assert ids[i..][Min(TRACKS_BATCH_SIZE, |ids| - i)..] == ids[Min(i + TRACKS_BATCH_SIZE, |ids|)..];
    assert ids[i..][..Min(TRACKS_BATCH_SIZE, |ids| - i)] == ids[i..Min(i + TRACKS_BATCH_SIZE, |ids|)];
  }

  /** `get_tracks_info`: look the ids up in consecutive batches of at most 50
      and concatenate the answers in batch order. `tracks` is the upstream
      lookup; `batches` are the id lists it was asked for. */
  method GetTracksInfo<T>(trackIds: seq<string>, tracks: seq<string> -> seq<T>)
    returns (tracksInfo: seq<T>, batches: seq<seq<string>>)
    ensures batches == Batches(trackIds)
    ensures tracksInfo == Flatten(Map(batches, tracks))
  {
    tracksInfo, batches := [], [];
    var i := 0;
    while i < |trackIds|
      invariant 0 <= i
      invariant batches + Batches(trackIds[Min(i, |trackIds|)..]) == Batches(trackIds)
      invariant tracksInfo == Flatten(Map(batches, tracks))
    {
      var batch := trackIds[i..Min(i + TRACKS_BATCH_SIZE, |trackIds|)];
      var results := tracks(batch);
      BatchesFrom(trackIds, i);
      assert batches + [batch] + Batches(trackIds[Min(i + TRACKS_BATCH_SIZE, |trackIds|)..]) == Batches(trackIds);
      MapAppend(batches, batch, tracks);
      FlattenAppend(Map(batches, tracks), results);
      tracksInfo := tracksInfo + results;
      batches := batches + [batch];
      i := i + TRACKS_BATCH_SIZE;
    }
    assert trackIds[Min(i, |trackIds|)..] == [];
  }

  /** A stored expiry time: with a UTC offset, or naive (no zone). */
  datatype ExpiresAt = Aware(localSeconds: int, utcOffsetSeconds: int) | Naive(seconds: int)

  /** Seconds since the epoch; a naive time is read as UTC. */
  function EpochSeconds(e: ExpiresAt): int {
    match e
    case Aware(local, offset) => local - offset
    case Naive(s) => s
  }

  /** The token is refreshed once the current time has reached its expiry. */
  predicate TokenExpired(now: int, expiresAt: ExpiresAt) {
    now >= EpochSeconds(expiresAt)
  }

  /** A naive expiry time means the same instant as that time in UTC. */
  lemma NaiveMeansUtc(now: int, s: int)
    ensures TokenExpired(now, Naive(s)) == TokenExpired(now, Aware(s, 0))
  {
  }

  /** A row of 'Spotify Access'. */
  datatype AccessRow = AccessRow(id: int, accessToken: string, refreshToken: string, expiresAt: Option<ExpiresAt>)

  /** The write that stores a refreshed token for every access row of the user. */
  datatype TokenUpdate = TokenUpdate(userId: string, accessToken: string, expiresAt: int)

  datatype TokenLookup =
    | NoAccess
    | MissingExpiry
    | Token(accessToken: string, accessRowId: int, update: Option<TokenUpdate>)

  /** `get_access_token`: the newest access row's token, refreshed through
      `refresh` (token and expiry for a refresh token) when it has expired.
      A row with no expiry makes the parse raise. */
  function GetAccessToken(userId: string, newestFirst: seq<AccessRow>, now: int,
                          refresh: string -> (string, int)): (r: TokenLookup)
    ensures r == NoAccess <==> |newestFirst| == 0
    ensures r == MissingExpiry <==> |newestFirst| > 0 && newestFirst[0].expiresAt.None?
    ensures r.Token? ==> r.accessRowId == newestFirst[0].id
    ensures r.Token? ==> (r.update.Some? <==> TokenExpired(now, newestFirst[0].expiresAt.value))
    ensures r.Token? && r.update.None? ==> r.accessToken == newestFirst[0].accessToken
    ensures r.Token? && r.update.Some? ==>
              && r.update.value == TokenUpdate(userId, refresh(newestFirst[0].refreshToken).0,
                                               refresh(newestFirst[0].refreshToken).1)
              && r.accessToken == r.update.value.accessToken
  {
    if |newestFirst| == 0 then NoAccess
    else
      var row := newestFirst[0];
      match row.expiresAt
      case None => MissingExpiry
      case Some(expiresAt) =>
        if TokenExpired(now, expiresAt) then
          var (token, expiry) := refresh(row.refreshToken);
          Token(token, row.id, Some(TokenUpdate(userId, token, expiry)))
        else
          Token(row.accessToken, row.id, None)
  }
}
