/** The save action of the tracked-playlists form: each submitted entry is an
    insert when it has no stored id and an update otherwise; the inserts go in
    one call, then every update is sent. */
module UpdateTrackedPlaylists {
  import opened Wrappers
  import opened Sequences
  import opened SpotifyApi
  import opened TrackedPlaylistsForm

  /** A row to insert: the entry without its id, stamped with the user. */
  datatype PlaylistInsert = PlaylistInsert(
    userId: string,
    playlistName: string,
    active: bool,
    playlistId: string,
    removedPlaylistName: Option<string>,
    public: bool)

  /** A row update: the whole entry, stamped with the user. */
  datatype PlaylistUpdate = PlaylistUpdate(
    id: MaybeId,
    userId: string,
    playlistName: string,
    active: bool,
    playlistId: string,
    removedPlaylistName: Option<string>,
    public: bool)

  /** `playlist.id == null`, which holds for both null and undefined. */
  function IsNew(): FormEntry -> bool {
    (e: FormEntry) => e.id.Null? || e.id.Undefined?
  }

  function ToInsert(userId: string): FormEntry -> PlaylistInsert {
    (e: FormEntry) => PlaylistInsert(userId, e.playlistName, e.active, e.playlistId, e.removedPlaylistName, e.public)
  }

  function ToUpdate(userId: string): FormEntry -> PlaylistUpdate {
    (e: FormEntry) => PlaylistUpdate(e.id, userId, e.playlistName, e.active, e.playlistId, e.removedPlaylistName, e.public)
  }

  /** The `reduce` that pushes each entry onto `added` or `updated`. */
  method Partition(formData: seq<FormEntry>, userId: string)
    returns (added: seq<PlaylistInsert>, updated: seq<PlaylistUpdate>)
    ensures added == Map(Filter(formData, IsNew()), ToInsert(userId))
    ensures updated == Map(Filter(formData, Not(IsNew())), ToUpdate(userId))
  {
    added, updated := [], [];
    for i := 0 to |formData|
      invariant added == Map(Filter(formData[..i], IsNew()), ToInsert(userId))
      invariant updated == Map(Filter(formData[..i], Not(IsNew())), ToUpdate(userId))
    {
      var playlist := formData[i];
      FilterSnoc(formData, i, IsNew());
      FilterSnoc(formData, i, Not(IsNew()));
      if playlist.id.Null? || playlist.id.Undefined? {
        MapAppend(Filter(formData[..i], IsNew()), playlist, ToInsert(userId));
        added := added + [ToInsert(userId)(playlist)];
      } else {
        MapAppend(Filter(formData[..i], Not(IsNew())), playlist, ToUpdate(userId));
        updated := updated + [ToUpdate(userId)(playlist)];
      }
    }
    assert formData[..|formData|] == formData;
  }

  /** Every submitted entry lands in exactly one of the two lists. */
  lemma PartitionSplits(formData: seq<FormEntry>)
    ensures multiset(Filter(formData, IsNew())) + multiset(Filter(formData, Not(IsNew()))) == multiset(formData)
    ensures |Filter(formData, IsNew())| + |Filter(formData, Not(IsNew()))| == |formData|
    ensures forall e :: e in formData ==> (e in Filter(formData, IsNew()) <==> !e.id.Id?)
    ensures forall e :: e in formData ==> (e in Filter(formData, Not(IsNew())) <==> e.id.Id?)
  {
    FilterSplitsMultiset(formData, IsNew());
    assert |multiset(formData)| == |multiset(Filter(formData, IsNew()))| + |multiset(Filter(formData, Not(IsNew())))|;
    forall e | e in formData
      ensures e in Filter(formData, IsNew()) <==> !e.id.Id?
      ensures e in Filter(formData, Not(IsNew())) <==> e.id.Id?
    {
      var i :| 0 <= i < |formData| && formData[i] == e;
    }
  }

  /** A write the action sends. */
  datatype Write = InsertRows(rows: seq<PlaylistInsert>) | UpdateRow(row: PlaylistUpdate)

  function SendUpdate(): PlaylistUpdate -> Write {
    (u: PlaylistUpdate) => UpdateRow(u)
  }

  datatype ActionResult =
    | Unauthenticated        // 401 `User Not Authenticated`
    | Failed(error: string)  // 500
    | Succeeded              // 200

  /** No update came back with an error. */
  predicate AllUpdated(updated: seq<PlaylistUpdate>, updateFails: PlaylistUpdate -> bool) {
    forall i :: 0 <= i < |updated| ==> !updateFails(updated[i])
  }

  const UPDATE_ERROR: string := "Error updating one or more playlists"

  /** The update phase: every update is sent, after the writes already
      made; one refused update fails the action. */
  method SendUpdates(writesBefore: seq<Write>, updated: seq<PlaylistUpdate>, updateFails: PlaylistUpdate -> bool)
    returns (result: ActionResult, writes: seq<Write>)
    ensures writes == writesBefore + Map(updated, SendUpdate())
    ensures result == Succeeded <==> AllUpdated(updated, updateFails)
    ensures result != Succeeded ==> result == Failed(UPDATE_ERROR)
  {
    writes := writesBefore;
    if |updated| > 0 {
      var updateWrites := Map(updated, SendUpdate());
      writes := writes + updateWrites;
      var updateErrors := Filter(updated, updateFails);
      FilterEmpty(updated, updateFails);
      if |updateErrors| > 0 {
        return Failed(UPDATE_ERROR), writes;
      }
    } else {
      assert Map(updated, SendUpdate()) == [];
      assert writes == writesBefore + [];
    }
    result := Succeeded;
  }

  /** `updateTrackedPlaylists`: `userId` is None without a signed-in user,
      `insertError` the insert's error message, `updateFails` which updates
      the database refuses. */
  method UpdateTrackedPlaylists(userId: Option<string>, formData: seq<FormEntry>,
                                insertError: Option<string>, updateFails: PlaylistUpdate -> bool)
    returns (result: ActionResult, writes: seq<Write>)
    ensures userId.None? ==> result == Unauthenticated && writes == []
    ensures userId.Some? ==>
              var added := Map(Filter(formData, IsNew()), ToInsert(userId.value));
              var updated := Map(Filter(formData, Not(IsNew())), ToUpdate(userId.value));
              var inserts := if |added| > 0 then [InsertRows(added)] else [];
              && (|added| > 0 && insertError.Some? ==> result == Failed(insertError.value) && writes == inserts)
              && (!(|added| > 0 && insertError.Some?) ==>
                    && writes == inserts + Map(updated, SendUpdate())
                    && (result == Succeeded <==> AllUpdated(updated, updateFails))
                    && (result != Succeeded ==> result == Failed(UPDATE_ERROR)))
  {
    if userId.None? {
      return Unauthenticated, [];
    }
    var added, updated := Partition(formData, userId.value);
    writes := [];
    if |added| > 0 {
      writes := [InsertRows(added)];
      if insertError.Some? {
        return Failed(insertError.value), writes;
      }
    }
    result, writes := SendUpdates(writes, updated, updateFails);
  }

  /** A playlist checked in the form and saved is inserted with the form's
      defaults for it. */
  lemma CheckedPlaylistIsInserted(rec: FormRecord, playlist: PlaylistSummary, userId: string)
    requires KeysDistinct(rec)
    ensures PlaylistInsert(userId, playlist.name, true, playlist.id, Some("Removed - " + playlist.name), false)
            in Map(Filter(SubmitPayload(Put(rec, playlist.id, NewEntry(playlist))), IsNew()), ToInsert(userId))
  {
    var after := Put(rec, playlist.id, NewEntry(playlist));
    LookupPut(rec, playlist.id, NewEntry(playlist), playlist.id);
    LookupIndex(after, playlist.id);
    var i :| 0 <= i < |after| && after[i] == (playlist.id, NewEntry(playlist));
    var payload := SubmitPayload(after);
    assert payload[i].(id := Null) == NewEntry(playlist);
    assert IsNew()(payload[i]);
    var added := Filter(payload, IsNew());
    assert payload[i] in added;
    var k :| 0 <= k < |added| && added[k] == payload[i];
    assert Map(added, ToInsert(userId))[k] == ToInsert(userId)(payload[i]);
  }
}
