/** The track-cache route: of the requested track ids, those without a fresh
    'Cached Tracks' row are looked up upstream and answered back; the
    smallest album image is picked for each looked-up track. Times are
    milliseconds since the epoch. */
module TrackCache {
  import opened Wrappers
  import opened Sequences
  import opened SpotifyApi

  const CACHE_TIMEOUT_DAYS: int := 7
  const MS_PER_DAY: int := 24 * 60 * 60 * 1000
  /** `Number.MAX_SAFE_INTEGER`, the width assumed for an image without one. */
  const MAX_SAFE_INTEGER: int := 9007199254740991

  /** A row of 'Cached Tracks' as the route reads it. */
  datatype CachedTrackRow = CachedTrackRow(trackId: string, updatedAt: Option<int>)

  /** A row is fresh when it has an update time strictly after the timeout. */
  predicate IsFresh(now: int, row: CachedTrackRow) {
    row.updatedAt.Some? && row.updatedAt.value > now - CACHE_TIMEOUT_DAYS * MS_PER_DAY
  }

  /** Freshness at the boundary: a row updated exactly seven days ago is
      stale, one updated a millisecond later is fresh, a row never updated
      is stale. */
  lemma FreshnessBoundary(now: int, id: string)
    ensures !IsFresh(now, CachedTrackRow(id, Some(now - 7 * 86400000)))
    ensures IsFresh(now, CachedTrackRow(id, Some(now - 7 * 86400000 + 1)))
    ensures !IsFresh(now, CachedTrackRow(id, None))
  {
  }

  /** The ids of the fresh rows (`cachedTrackIds`). */
  function FreshIds(rows: seq<CachedTrackRow>, now: int): set<string> {
    set i | 0 <= i < |rows| && IsFresh(now, rows[i]) :: rows[i].trackId
  }

  function NotIn(ids: set<string>): string -> bool {
    (id: string) => id !in ids
  }

  /** The requested ids without a fresh row, in request order. */
  function UncachedIds(trackIds: seq<string>, rows: seq<CachedTrackRow>, now: int): seq<string> {
    Filter(trackIds, NotIn(FreshIds(rows, now)))
  }

  /** The uncached ids keep the request's order: the ids of a request split
      in two are those of the first part followed by those of the second. */
  lemma UncachedIdsConcat(a: seq<string>, b: seq<string>, rows: seq<CachedTrackRow>, now: int)
    ensures UncachedIds(a + b, rows, now) == UncachedIds(a, rows, now) + UncachedIds(b, rows, now)
  {
    FilterConcat(a, b, NotIn(FreshIds(rows, now)));
  }

  /** An id is uncached exactly when no fresh row carries it; each such id
      keeps every one of its occurrences in the request, and the fresh ones
      none. */
  lemma UncachedIdsSpec(trackIds: seq<string>, rows: seq<CachedTrackRow>, now: int, id: string)
    ensures id in UncachedIds(trackIds, rows, now) <==>
              id in trackIds && forall i :: 0 <= i < |rows| && IsFresh(now, rows[i]) ==> rows[i].trackId != id
    ensures multiset(UncachedIds(trackIds, rows, now))[id] ==
              if forall i :: 0 <= i < |rows| && IsFresh(now, rows[i]) ==> rows[i].trackId != id
              then multiset(trackIds)[id] else 0
  {
    var freshIds := FreshIds(rows, now);
    FilterCount(trackIds, NotIn(freshIds), id);
    if id in freshIds {
      var i :| 0 <= i < |rows| && IsFresh(now, rows[i]) && rows[i].trackId == id;
    }
    if id in trackIds && id !in freshIds {
      var k :| 0 <= k < |trackIds| && trackIds[k] == id;
      assert NotIn(freshIds)(trackIds[k]);
    }
  }

  /** The width an image counts with: `width || Number.MAX_SAFE_INTEGER`. */
  function EffectiveWidth(image: Image): int {
    if image.width.Some? && image.width.value != 0 then image.width.value else MAX_SAFE_INTEGER
  }

  /** The index the `reduce` ends on: the running choice is replaced only by
      a strictly narrower image. */
  function SmallestIndex(images: seq<Image>): (k: nat)
    requires |images| > 0
    ensures k < |images|
    ensures forall j :: 0 <= j < |images| ==> EffectiveWidth(images[k]) <= EffectiveWidth(images[j])
    ensures forall j :: 0 <= j < k ==> EffectiveWidth(images[j]) > EffectiveWidth(images[k])
  {
    if |images| == 1 then 0
    else
      var k := SmallestIndex(images[..|images| - 1]);
      if EffectiveWidth(images[|images| - 1]) < EffectiveWidth(images[k]) then |images| - 1 else k
  }

  /** `getSmallestImage`: null for a missing or empty list, otherwise the url
      of the first image of least width. */
  function SmallestImage(images: Option<seq<Image>>): (r: Option<string>)
    ensures r.None? <==> images.None? || |images.value| == 0
    ensures r.Some? ==>
              exists k :: 0 <= k < |images.value| && r.value == images.value[k].url &&
                (forall j :: 0 <= j < |images.value| ==> EffectiveWidth(images.value[k]) <= EffectiveWidth(images.value[j])) &&
                (forall j :: 0 <= j < k ==> EffectiveWidth(images.value[j]) > EffectiveWidth(images.value[k]))
  {
    if images.None? || |images.value| == 0 then None
    else Some(images.value[SmallestIndex(images.value)].url)
  }

  /** A track record built from an upstream track. */
  datatype NewTrack = NewTrack(trackId: string, title: string, artist: string, album: string,
                               image: Option<string>, updatedAt: int)

  datatype TracksResponse =
    | CacheQueryFailed       // 500 `Error fetching cached tracks`
    | Uncached(ids: seq<string>)
    | Thrown                 // the upstream lookup failed, or a track has no artist

  predicate HasArtists(t: Track) {
    |t.artists| > 0
  }

  function ToNewTrack(t: Track, now: int): NewTrack
    requires HasArtists(t)
  {
    NewTrack(t.id, t.name, t.artists[0].name, t.album.name, SmallestImage(t.album.images), now)
  }

  /** The `map` over the upstream tracks; None when a track has no artist,
      where reading the first artist's name throws. */
  function NewTracks(tracks: seq<Track>, now: int): (r: Option<seq<NewTrack>>)
    ensures r.Some? <==> forall i :: 0 <= i < |tracks| ==> HasArtists(tracks[i])
    ensures r.Some? ==> |r.value| == |tracks|
    ensures r.Some? ==> forall i :: 0 <= i < |tracks| ==> r.value[i] == ToNewTrack(tracks[i], now)
  {
    if |tracks| == 0 then Some([])
    else
      var init := NewTracks(tracks[..|tracks| - 1], now);
      var last := tracks[|tracks| - 1];
      if init.None? || !HasArtists(last) then None
      else Some(init.value + [ToNewTrack(last, now)])
  }

  /** `POST`: `queryFailed` and `cachedRows` are the cache query's answer
      (rows may be null), `getTracks` the upstream lookup when it answers
      with a track per id, and `lookupFails` says that it does not: the call
      rejects (more than 50 ids, say) or answers null for an unknown id,
      which the mapping cannot read. `lookedUp` says whether the upstream
      was asked. */
  method Post(trackIds: seq<string>, queryFailed: bool, cachedRows: Option<seq<CachedTrackRow>>,
              now: int, lookupFails: bool, getTracks: seq<string> -> seq<Track>)
    returns (response: TracksResponse, newTracks: seq<NewTrack>, lookedUp: bool)
    ensures queryFailed ==> response == CacheQueryFailed && !lookedUp && newTracks == []
    ensures !queryFailed ==>
              var uncached := UncachedIds(trackIds, cachedRows.GetOr([]), now);
              && lookedUp == (|uncached| > 0)
              && (!lookedUp ==> response == Uncached(uncached) && newTracks == [])
              && (lookedUp && lookupFails ==> response == Thrown && newTracks == [])
              && (lookedUp && !lookupFails && (forall i :: 0 <= i < |getTracks(uncached)| ==> HasArtists(getTracks(uncached)[i])) ==>
                    && response == Uncached(uncached)
                    && |newTracks| == |getTracks(uncached)|
                    && forall i :: 0 <= i < |newTracks| ==> newTracks[i] == ToNewTrack(getTracks(uncached)[i], now))
              && (lookedUp && !lookupFails && !(forall i :: 0 <= i < |getTracks(uncached)| ==> HasArtists(getTracks(uncached)[i])) ==>
                    response == Thrown)
  {
    newTracks, lookedUp := [], false;
    if queryFailed {
      return CacheQueryFailed, [], false;
    }
    var uncachedTrackIds := UncachedIds(trackIds, cachedRows.GetOr([]), now);
    if |uncachedTrackIds| > 0 {
      lookedUp := true;
      if lookupFails {
        return Thrown, [], true;
      }
      var shaped := NewTracks(getTracks(uncachedTrackIds), now);
      if shaped.None? {
        return Thrown, [], true;
      }
      newTracks := shaped.value;
    }
    response := Uncached(uncachedTrackIds);
  }
}
