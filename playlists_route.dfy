/** The settings playlists route: every page of the user's playlists is
    fetched, the ones the user owns or the two service-curated exceptions are
    kept, non-owned ones are listed first, and a Liked Songs entry leads. */
module PlaylistsRoute {
  import opened Math
  import opened Wrappers
  import opened Sequences
  import opened SpotifyApi

  /** The page size the upstream uses when none is asked for. */
  const DEFAULT_LIMIT: nat := 20
  const PUBLIC_PLAYLIST_EXCEPTIONS: seq<string> := ["On Repeat", "Release Radar"]

  /** A page of the current user's playlists: its items and the paging
      fields the upstream echoes back. */
  datatype PlaylistsPage = PlaylistsPage(items: seq<PlaylistSummary>, total: nat, offset: nat, limit: nat)

  /** `getUserPlaylists({limit, offset})`, answered from the user's whole
      list `all`. */
  function GetUserPlaylists(all: seq<PlaylistSummary>, offset: nat, limit: nat): PlaylistsPage {
    PlaylistsPage(if offset >= |all| then [] else all[offset..Min(offset + limit, |all|)], |all|, offset, limit)
  }

  /** The offsets the route asks for, starting at `from`: another page is
      asked for while `total > offset + limit`. */
  function PageOffsets(total: nat, limit: nat, from: nat): (r: seq<int>)
    requires limit > 0
    ensures |r| > 0 && r[0] == from
    decreases total - from
  {
    if total > from + limit then [from] + PageOffsets(total, limit, from + limit) else [from]
  }

  /** The offsets are `limit` apart; every one but the last leaves items
      after its page, and the last page reaches the end of the list. */
  lemma {:induction false} PageOffsetsStride(total: nat, limit: nat, from: nat)
    requires limit > 0
    ensures var r := PageOffsets(total, limit, from);
            && (forall k :: 0 <= k < |r| - 1 ==> r[k + 1] == r[k] + limit && total > r[k] + limit)
            && total <= r[|r| - 1] + limit
    decreases total - from
  {
    if total > from + limit {
      PageOffsetsStride(total, limit, from + limit);
    }
  }

  /** The offsets still to be asked for after the page at `offset`. */
  function Rest(total: nat, limit: nat, offset: nat): seq<int>
    requires limit > 0
  {
    if total > offset + limit then PageOffsets(total, limit, offset + limit) else []
  }

  /** One step of the loop: the next page extends the playlists collected so
      far, and its offset is the next one due. */
  lemma FetchStep(all: seq<PlaylistSummary>, limit: nat, offset: nat, requests: seq<int>)
    requires limit > 0 && |all| > offset + limit
    requires requests + Rest(|all|, limit, offset) == PageOffsets(|all|, limit, 0)
    ensures var next := GetUserPlaylists(all, offset + limit, limit);
            && next.offset == offset + limit && next.offset < |all|
            && all[..Min(offset + limit, |all|)] + next.items == all[..Min(next.offset + limit, |all|)]
            && (requests + [next.offset]) + Rest(|all|, limit, next.offset) == PageOffsets(|all|, limit, 0)
  {
    var next := GetUserPlaylists(all, offset + limit, limit);
    var end := Min(offset + limit + limit, |all|);
    assert next.items == all[offset + limit..end];
    assert all[..offset + limit] + all[offset + limit..end] == all[..end];
    var rest := Rest(|all|, limit, offset + limit);
    assert Rest(|all|, limit, offset) == [offset + limit] + rest;
    assert requests + ([offset + limit] + rest) == (requests + [offset + limit]) + rest;
  }

  /** The first page is the start of the list and its offset the first one
      due. */
  lemma FetchFirst(all: seq<PlaylistSummary>, limit: nat)
    requires limit > 0
    ensures GetUserPlaylists(all, 0, limit).items == all[..Min(limit, |all|)]
    ensures [0] + Rest(|all|, limit, 0) == PageOffsets(|all|, limit, 0)
  {
    if |all| == 0 {
      assert all[..0] == [];
    }
  }

  /** When the upstream reports no further page, the whole list is
      collected and every offset asked for. */
  lemma FetchDone(all: seq<PlaylistSummary>, limit: nat, offset: nat, requests: seq<int>)
    requires limit > 0 && |all| <= offset + limit
    requires requests + Rest(|all|, limit, offset) == PageOffsets(|all|, limit, 0)
    ensures all[..Min(offset + limit, |all|)] == all
    ensures requests == PageOffsets(|all|, limit, 0)
  {
    assert all[..|all|] == all;
    assert requests + [] == requests;
  }

  /** The pagination loop: the first page at the default offset, then one
      page further on while the upstream reports more. */
  method FetchAllPlaylists(all: seq<PlaylistSummary>, limit: nat)
    returns (userPlaylists: seq<PlaylistSummary>, requests: seq<int>)
    requires limit > 0
    ensures userPlaylists == all
    ensures requests == PageOffsets(|all|, limit, 0)
  {
    FetchFirst(all, limit);
    var playlists := GetUserPlaylists(all, 0, limit);
    requests := [0];
    userPlaylists := playlists.items;
    while playlists.total > playlists.offset + playlists.limit
      invariant playlists == GetUserPlaylists(all, playlists.offset, limit)
      invariant playlists.limit == limit && playlists.total == |all|
      invariant playlists.offset == 0 || playlists.offset < |all|
      invariant userPlaylists == all[..Min(playlists.offset + limit, |all|)]
      invariant requests + Rest(|all|, limit, playlists.offset) == PageOffsets(|all|, limit, 0)
      decreases |all| - playlists.offset
    {
      FetchStep(all, limit, playlists.offset, requests);
      playlists := GetUserPlaylists(all, playlists.offset + playlists.limit, playlists.limit);
      requests := requests + [playlists.offset];
      userPlaylists := userPlaylists + playlists.items;
    }
    FetchDone(all, limit, playlists.offset, requests);
  }

  /** The user owns the playlist or it is one of the named exceptions. */
  function Kept(spotifyId: string): PlaylistSummary -> bool {
    (p: PlaylistSummary) => p.ownerId == spotifyId || p.name in PUBLIC_PLAYLIST_EXCEPTIONS
  }

  /** The sort's first class: playlists the user does not own. */
  function NotOwned(spotifyId: string): PlaylistSummary -> bool {
    (p: PlaylistSummary) => p.ownerId != spotifyId
  }

  /** The pseudo-playlist standing for the saved tracks. */
  function LikedSongs(spotifyId: string): PlaylistSummary {
    PlaylistSummary("liked_songs", "Liked Songs", spotifyId, Some([Image("/liked-songs-logo.png", Some(60))]))
  }

  datatype PlaylistsResponse =
    | Unauthenticated                          // 401 `User Not Authenticated`
    | Playlists(items: seq<PlaylistSummary>)   // 200

  /** `GET`: `spotifyId` is the signed-in user's provider id, None when no
      user is signed in; `all` is that user's playlist list upstream. */
  method Get(spotifyId: Option<string>, all: seq<PlaylistSummary>)
    returns (response: PlaylistsResponse, requests: seq<int>)
    ensures spotifyId.None? ==> response == Unauthenticated && requests == []
    ensures spotifyId.Some? ==>
              && requests == PageOffsets(|all|, DEFAULT_LIMIT, 0)
              && response.Playlists?
              && |response.items| > 0
              && response.items[0] == LikedSongs(spotifyId.value)
              && response.items[1..] == StablePartition(Filter(all, Kept(spotifyId.value)), NotOwned(spotifyId.value))
  {
    if spotifyId.None? {
      return Unauthenticated, [];
    }
    var userPlaylists;
    userPlaylists, requests := FetchAllPlaylists(all, DEFAULT_LIMIT);
    var finalPlaylists := StablePartition(Filter(userPlaylists, Kept(spotifyId.value)), NotOwned(spotifyId.value));
    finalPlaylists := [LikedSongs(spotifyId.value)] + finalPlaylists;
    assert finalPlaylists[1..] == StablePartition(Filter(userPlaylists, Kept(spotifyId.value)), NotOwned(spotifyId.value));
    response := Playlists(finalPlaylists);
  }

  /** What the route lists after the Liked Songs entry: exactly the kept
      playlists, each as often as upstream lists it, non-owned before owned,
      each group in upstream order. */
  lemma ListedPlaylistsSpec(all: seq<PlaylistSummary>, spotifyId: string)
    ensures var listed := StablePartition(Filter(all, Kept(spotifyId)), NotOwned(spotifyId));
            && |listed| == |Filter(all, Kept(spotifyId))|
            && multiset(listed) == multiset(Filter(all, Kept(spotifyId)))
            && (forall p :: p in listed <==> p in all && (p.ownerId == spotifyId || p.name in PUBLIC_PLAYLIST_EXCEPTIONS))
            && (forall i, j :: 0 <= i < j < |listed| && listed[i].ownerId == spotifyId ==> listed[j].ownerId == spotifyId)
            && Filter(listed, NotOwned(spotifyId)) == Filter(Filter(all, Kept(spotifyId)), NotOwned(spotifyId))
            && Filter(listed, Not(NotOwned(spotifyId))) == Filter(Filter(all, Kept(spotifyId)), Not(NotOwned(spotifyId)))
  {
    var kept := Filter(all, Kept(spotifyId));
    var listed := StablePartition(kept, NotOwned(spotifyId));
    StablePartitionPermutes(kept, NotOwned(spotifyId));
    StablePartitionOrdered(kept, NotOwned(spotifyId));
    StablePartitionKeepsOrder(kept, NotOwned(spotifyId));
    forall p
      ensures p in listed <==> p in all && (p.ownerId == spotifyId || p.name in PUBLIC_PLAYLIST_EXCEPTIONS)
    {
      assert p in listed <==> p in multiset(listed);
      assert p in kept <==> p in multiset(kept);
      if p in all && Kept(spotifyId)(p) {
        var i :| 0 <= i < |all| && all[i] == p;
      }
      if p in kept {
        var i :| 0 <= i < |kept| && kept[i] == p;
      }
    }
  }
}
