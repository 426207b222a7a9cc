/** The tracked-playlists settings form: its values are a record keyed by
    playlist id; checking, unchecking and submitting edit or read that record,
    and the listed playlists are deduplicated and shown tracked-first. */
module TrackedPlaylistsForm {
  import opened Wrappers
  import opened Sequences
  import opened SpotifyApi
  import TrackCache

  /** The form's `id`: a number, `null` (a playlist checked in this form) or
      absent. */
  datatype MaybeId = Undefined | Null | Id(n: int)

  /** One value of the form record. */
  datatype FormEntry = FormEntry(
    id: MaybeId,
    playlistName: string,
    active: bool,
    playlistId: string,
    removedPlaylistName: Option<string>,
    public: bool)

  /** A stored 'Tracked Playlists' row, as the settings response carries it. */
  datatype TrackedPlaylistSetting = TrackedPlaylistSetting(
    id: int,
    playlistName: string,
    active: bool,
    playlistId: string,
    removedPlaylistName: Option<string>,
    public: bool)

  /** The form record: a JavaScript object keyed by playlist id, which keeps
      its keys in insertion order. */
  type FormRecord = seq<(string, FormEntry)>

  function KeySet(rec: FormRecord): set<string> {
    set i | 0 <= i < |rec| :: rec[i].0
  }

  lemma KeySetSnoc(rec: FormRecord, kv: (string, FormEntry))
    ensures KeySet(rec + [kv]) == KeySet(rec) + {kv.0}
  {
    var r := rec + [kv];
    assert r[|rec|] == kv;
    assert forall i :: 0 <= i < |rec| ==> r[i] == rec[i];
    assert forall x :: x in KeySet(rec) ==> x in KeySet(r);
  }

  predicate KeysDistinct(rec: FormRecord) {
    forall i, j :: 0 <= i < j < |rec| ==> rec[i].0 != rec[j].0
  }

  /** Reading a key of the record. */
  function Lookup(rec: FormRecord, key: string): (r: Option<FormEntry>)
    ensures r.None? <==> key !in KeySet(rec)
  {
    if |rec| == 0 then None
    else if rec[|rec| - 1].0 == key then Some(rec[|rec| - 1].1)
    else
      var r := Lookup(rec[..|rec| - 1], key);
      KeySetSnoc(rec[..|rec| - 1], rec[|rec| - 1]);
      assert rec[..|rec| - 1] + [rec[|rec| - 1]] == rec;
      r
  }

  /** `{...rec, [key]: entry}` and `setValue(key, entry)`: an existing key
      keeps its place and takes the new value, a new key goes last. */
  function Put(rec: FormRecord, key: string, entry: FormEntry): (r: FormRecord)
    ensures KeySet(r) == KeySet(rec) + {key}
    ensures KeysDistinct(rec) ==> KeysDistinct(r)
  {
    if |rec| == 0 then
      KeySetSnoc([], (key, entry));
      [(key, entry)]
    else
      var init := rec[..|rec| - 1];
      var last := rec[|rec| - 1];
      KeySetSnoc(init, last);
      assert init + [last] == rec;
      if last.0 == key then
        KeySetSnoc(init, (key, entry));
        init + [(key, entry)]
      else
        var r := Put(init, key, entry) + [last];
        KeySetSnoc(Put(init, key, entry), last);
        r
  }

  /** `unregister(key)`: the key and its value leave the record. */
  function Remove(rec: FormRecord, key: string): (r: FormRecord)
    ensures KeySet(r) == KeySet(rec) - {key}
    ensures KeysDistinct(rec) ==> KeysDistinct(r)
  {
    if |rec| == 0 then []
    else
      var init := rec[..|rec| - 1];
      var last := rec[|rec| - 1];
      KeySetSnoc(init, last);
      assert init + [last] == rec;
      if last.0 == key then
        assert KeysDistinct(rec) ==> key !in KeySet(init);
        Remove(init, key)
      else
        var r := Remove(init, key) + [last];
        KeySetSnoc(Remove(init, key), last);
        r
  }

  /** The partner of `Put`: the key now reads the new value, every other
      key reads what it read before. */
  lemma {:induction false} LookupPut(rec: FormRecord, key: string, entry: FormEntry, other: string)
    ensures Lookup(Put(rec, key, entry), other) == if other == key then Some(entry) else Lookup(rec, other)
    decreases |rec|
  {
    if |rec| > 0 {
      var init := rec[..|rec| - 1];
      var last := rec[|rec| - 1];
      if last.0 == key {
        assert (init + [(key, entry)])[..|init|] == init;
      } else {
        LookupPut(init, key, entry, other);
        assert (Put(init, key, entry) + [last])[..|Put(init, key, entry)|] == Put(init, key, entry);
      }
    }
  }

  /** The partner of `Remove`: the key reads nothing, every other key reads
      what it read before. */
  lemma {:induction false} LookupRemove(rec: FormRecord, key: string, other: string)
    requires KeysDistinct(rec)
    ensures Lookup(Remove(rec, key), other) == if other == key then None else Lookup(rec, other)
    decreases |rec|
  {
    if |rec| > 0 {
      var init := rec[..|rec| - 1];
      var last := rec[|rec| - 1];
      assert KeysDistinct(init);
      if last.0 != key {
        LookupRemove(init, key, other);
        assert (Remove(init, key) + [last])[..|Remove(init, key)|] == Remove(init, key);
      } else {
        LookupRemove(init, key, other);
        assert key !in KeySet(init);
      }
    }
  }

  /** A key that reads a value is stored at some position with that value. */
  lemma {:induction false} LookupIndex(rec: FormRecord, key: string)
    requires Lookup(rec, key).Some?
    ensures exists i :: 0 <= i < |rec| && rec[i] == (key, Lookup(rec, key).value)
    decreases |rec|
  {
    var n := |rec| - 1;
    if rec[n].0 != key {
      LookupIndex(rec[..n], key);
      var i :| 0 <= i < n && rec[..n][i] == (key, Lookup(rec[..n], key).value);
      assert rec[i] == (key, Lookup(rec, key).value);
    } else {
      assert rec[n] == (key, Lookup(rec, key).value);
    }
  }

  /** Adding a key that was absent and then removing it gives back the
      record unchanged. */
  lemma {:induction false} RemovePutFresh(rec: FormRecord, key: string, entry: FormEntry)
    requires key !in KeySet(rec)
    ensures Remove(Put(rec, key, entry), key) == rec
    decreases |rec|
  {
    if |rec| > 0 {
      var init := rec[..|rec| - 1];
      var last := rec[|rec| - 1];
      assert init + [last] == rec;
      KeySetSnoc(init, last);
      assert last.0 != key;
      RemovePutFresh(init, key, entry);
      var put := Put(init, key, entry);
      assert Put(rec, key, entry) == put + [last];
      assert (put + [last])[..|put|] == put;
      assert Remove(put + [last], key) == Remove(put, key) + [last];
    }
  }

  /** The form value a stored row starts as. */
  function EntryOf(row: TrackedPlaylistSetting): FormEntry {
    FormEntry(Id(row.id), row.playlistName, row.active, row.playlistId, row.removedPlaylistName, row.public)
  }

  /** `defaultValues`: the stored rows folded into a record keyed by
      `playlist_id`, left to right. */
  function DefaultValues(rows: seq<TrackedPlaylistSetting>): (r: FormRecord)
    ensures KeysDistinct(r)
  {
    if |rows| == 0 then []
    else Put(DefaultValues(rows[..|rows| - 1]), rows[|rows| - 1].playlistId, EntryOf(rows[|rows| - 1]))
  }

  /** The playlist ids of the stored rows. */
  function RowIds(rows: seq<TrackedPlaylistSetting>): set<string> {
    set i | 0 <= i < |rows| :: rows[i].playlistId
  }

  lemma RowIdsSnoc(rows: seq<TrackedPlaylistSetting>, row: TrackedPlaylistSetting)
    ensures RowIds(rows + [row]) == RowIds(rows) + {row.playlistId}
  {
    var r := rows + [row];
    assert r[|rows|] == row;
    assert forall i :: 0 <= i < |rows| ==> r[i] == rows[i];
    assert forall x :: x in RowIds(rows) ==> x in RowIds(r);
  }

  lemma {:induction false} DefaultValuesKeys(rows: seq<TrackedPlaylistSetting>)
    ensures KeySet(DefaultValues(rows)) == RowIds(rows)
    decreases |rows|
  {
    if |rows| > 0 {
      var init, last := rows[..|rows| - 1], rows[|rows| - 1];
      DefaultValuesKeys(init);
      RowIdsSnoc(init, last);
      assert init + [last] == rows;
    }
  }

  lemma {:induction false} DefaultValuesLast(rows: seq<TrackedPlaylistSetting>, key: string, i: nat)
    requires i < |rows| && rows[i].playlistId == key
    requires forall j :: i < j < |rows| ==> rows[j].playlistId != key
    ensures Lookup(DefaultValues(rows), key) == Some(EntryOf(rows[i]))
    decreases |rows|
  {
    var init, last := rows[..|rows| - 1], rows[|rows| - 1];
    LookupPut(DefaultValues(init), last.playlistId, EntryOf(last), key);
    if i < |rows| - 1 {
      assert init[i] == rows[i];
      assert forall j :: i < j < |init| ==> init[j] == rows[j];
      DefaultValuesLast(init, key, i);
    }
  }

  /** The default record has a key exactly for each stored playlist id, and
      that key holds the LAST row carrying it. */
  lemma DefaultValuesSpec(rows: seq<TrackedPlaylistSetting>, key: string)
    ensures Lookup(DefaultValues(rows), key).None? <==> forall i :: 0 <= i < |rows| ==> rows[i].playlistId != key
    ensures forall i :: 0 <= i < |rows| && rows[i].playlistId == key &&
                        (forall j :: i < j < |rows| ==> rows[j].playlistId != key) ==>
                        Lookup(DefaultValues(rows), key) == Some(EntryOf(rows[i]))
  {
    DefaultValuesKeys(rows);
    forall i | 0 <= i < |rows| && rows[i].playlistId == key &&
               (forall j :: i < j < |rows| ==> rows[j].playlistId != key)
      ensures Lookup(DefaultValues(rows), key) == Some(EntryOf(rows[i]))
    {
      DefaultValuesLast(rows, key, i);
    }
  }

  /** The entry a checked, untracked playlist gets (`onUncheckedChange`). */
  function NewEntry(playlist: PlaylistSummary): FormEntry {
    FormEntry(Null, playlist.name, true, playlist.id, Some("Removed - " + playlist.name), false)
  }

  /** A tracked playlist's checkbox: unchecking an entry with no stored id
      drops it from the record, any other change sets only `active`. */
  function AfterTrackedCheckbox(rec: FormRecord, key: string, checked: bool): (r: FormRecord)
    requires KeysDistinct(rec) && key in KeySet(rec)
    ensures KeysDistinct(r)
    ensures !checked && !Lookup(rec, key).value.id.Id? ==> r == Remove(rec, key)
    ensures checked || Lookup(rec, key).value.id.Id? ==>
              r == Put(rec, key, Lookup(rec, key).value.(active := checked))
  {
    var entry := Lookup(rec, key).value;
    if !checked && (entry.id.Null? || entry.id.Undefined?) then Remove(rec, key)
    else Put(rec, key, entry.(active := checked))
  }

  /** What the checkbox does, key by key: the entry's fields other than
      `active` are kept, and no other key is touched. */
  lemma TrackedCheckboxEffect(rec: FormRecord, key: string, checked: bool, other: string)
    requires KeysDistinct(rec) && key in KeySet(rec)
    ensures var r := AfterTrackedCheckbox(rec, key, checked);
            && (other != key ==> Lookup(r, other) == Lookup(rec, other))
            && (!checked && !Lookup(rec, key).value.id.Id? ==> Lookup(r, key).None?)
            && (checked || Lookup(rec, key).value.id.Id? ==>
                  Lookup(r, key).Some? && Lookup(r, key).value.active == checked &&
                  Lookup(r, key).value.(active := Lookup(rec, key).value.active) == Lookup(rec, key).value)
  {
    var entry := Lookup(rec, key).value;
    if !checked && !entry.id.Id? {
      LookupRemove(rec, key, other);
      LookupRemove(rec, key, key);
    } else {
      LookupPut(rec, key, entry.(active := checked), other);
      LookupPut(rec, key, entry.(active := checked), key);
    }
  }

  /** Checking an untracked playlist and unchecking it again leaves the record
      as it was. */
  lemma CheckThenUncheck(rec: FormRecord, playlist: PlaylistSummary)
    requires KeysDistinct(rec) && playlist.id !in KeySet(rec)
    ensures AfterTrackedCheckbox(Put(rec, playlist.id, NewEntry(playlist)), playlist.id, false) == rec
  {
    LookupPut(rec, playlist.id, NewEntry(playlist), playlist.id);
    RemovePutFresh(rec, playlist.id, NewEntry(playlist));
  }

  /** The form's values, changed in place by the checkboxes. */
  class TrackedPlaylistsFormState {
    var values: FormRecord

    ghost predicate Valid()
      reads this
    {
      KeysDistinct(values)
    }

    /** `useForm({defaultValues})`. */
    constructor (rows: seq<TrackedPlaylistSetting>)
      ensures values == DefaultValues(rows)
      ensures Valid()
    {
      values := DefaultValues(rows);
    }

    /** `form.setValue(key, entry)`. */
    method SetValue(key: string, entry: FormEntry)
      requires Valid()
      modifies this
      ensures values == Put(old(values), key, entry)
      ensures Valid()
    {
      values := Put(values, key, entry);
    }

    /** `onUncheckedChange`: checking an untracked playlist adds its default
        entry; unchecking it does nothing. */
    method OnUncheckedChange(checked: bool, playlist: PlaylistSummary)
      requires Valid()
      modifies this
      ensures checked ==> values == Put(old(values), playlist.id, NewEntry(playlist))
      ensures !checked ==> values == old(values)
      ensures Valid()
    {
      if checked {
        SetValue(playlist.id, NewEntry(playlist));
      }
    }

    /** The tracked playlist's `onCheckedChange`. */
    method OnTrackedCheckedChange(key: string, checked: bool)
      requires Valid() && key in KeySet(values)
      modifies this
      ensures values == AfterTrackedCheckbox(old(values), key, checked)
      ensures Valid()
    {
      var entry := Lookup(values, key).value;
      if !checked && !entry.id.Id? {
        values := Remove(values, key);
      } else {
        values := Put(values, key, entry.(active := checked));
      }
    }
  }

  /** `playlist.id ?? undefined`. */
  function SubmittedId(id: MaybeId): MaybeId {
    if id.Null? then Undefined else id
  }

  /** `onSubmit`: one payload element per record value, in record order. */
  function SubmitPayload(rec: FormRecord): (r: seq<FormEntry>)
    ensures |r| == |rec|
    ensures forall i :: 0 <= i < |r| ==> !r[i].id.Null?
    ensures forall i :: 0 <= i < |r| ==> (r[i].id.Id? <==> rec[i].1.id.Id?)
    ensures forall i :: 0 <= i < |r| ==> r[i].(id := rec[i].1.id) == rec[i].1
    ensures forall i :: 0 <= i < |r| && rec[i].1.id.Id? ==> r[i].id == rec[i].1.id
    ensures forall i :: 0 <= i < |r| && !rec[i].1.id.Id? ==> r[i].id == Undefined
  {
    Map(rec, (kv: (string, FormEntry)) => kv.1.(id := SubmittedId(kv.1.id)))
  }

  // Deduplication of the listed playlists

  function IdsOf(s: seq<PlaylistSummary>): set<string> {
    set i | 0 <= i < |s| :: s[i].id
  }

  lemma IdsOfSnoc(s: seq<PlaylistSummary>, p: PlaylistSummary)
    ensures IdsOf(s + [p]) == IdsOf(s) + {p.id}
  {
    var r := s + [p];
    assert r[|s|] == p;
    assert forall i :: 0 <= i < |s| ==> r[i] == s[i];
    assert forall x :: x in IdsOf(s) ==> x in IdsOf(r);
  }

  /** The index of the first playlist carrying `id`. */
  function FirstIndex(s: seq<PlaylistSummary>, id: string): (k: nat)
    requires id in IdsOf(s)
    ensures k < |s| && s[k].id == id
    ensures forall j :: 0 <= j < k ==> s[j].id != id
  {
    var init := s[..|s| - 1];
    if id in IdsOf(init) then
      var k := FirstIndex(init, id);
      assert init[k] == s[k];
      k
    else
      assert forall j :: 0 <= j < |init| ==> init[j] == s[j];
      |s| - 1
  }

  /** The filter with a `Set` of seen ids: a playlist is kept when no earlier
      one had its id. */
  function FirstOccurrences(s: seq<PlaylistSummary>): seq<PlaylistSummary> {
    if |s| == 0 then []
    else if s[|s| - 1].id in IdsOf(s[..|s| - 1]) then FirstOccurrences(s[..|s| - 1])
    else FirstOccurrences(s[..|s| - 1]) + [s[|s| - 1]]
  }

  /** Appending a playlist leaves the first index of an id already present
      where it was. */
  lemma FirstIndexSnoc(s: seq<PlaylistSummary>, p: PlaylistSummary, id: string)
    requires id in IdsOf(s)
    ensures id in IdsOf(s + [p]) && FirstIndex(s + [p], id) == FirstIndex(s, id)
  {
    IdsOfSnoc(s, p);
    assert (s + [p])[..|s|] == s;
  }

  lemma {:induction false} FirstOccurrencesIds(s: seq<PlaylistSummary>)
    ensures IdsOf(FirstOccurrences(s)) == IdsOf(s)
    decreases |s|
  {
    if |s| > 0 {
      var init, last := s[..|s| - 1], s[|s| - 1];
      FirstOccurrencesIds(init);
      IdsOfSnoc(init, last);
      assert init + [last] == s;
      if last.id !in IdsOf(init) {
        IdsOfSnoc(FirstOccurrences(init), last);
      }
    }
  }

  lemma {:induction false} FirstOccurrencesFirst(s: seq<PlaylistSummary>)
    ensures forall a :: 0 <= a < |FirstOccurrences(s)| ==>
              FirstOccurrences(s)[a].id in IdsOf(s) &&
              FirstOccurrences(s)[a] == s[FirstIndex(s, FirstOccurrences(s)[a].id)]
    decreases |s|
  {
    if |s| > 0 {
      var init, last := s[..|s| - 1], s[|s| - 1];
      var d := FirstOccurrences(init);
      FirstOccurrencesFirst(init);
      assert init + [last] == s;
      var r := FirstOccurrences(s);
      forall a | 0 <= a < |r|
        ensures r[a].id in IdsOf(s) && r[a] == s[FirstIndex(s, r[a].id)]
      {
        if a < |d| {
          assert r[a] == d[a];
          FirstIndexSnoc(init, last, d[a].id);
        } else {
          IdsOfSnoc(init, last);
          assert r[a] == last;
        }
      }
    }
  }

  lemma {:induction false} FirstOccurrencesOrdered(s: seq<PlaylistSummary>)
    ensures forall a :: 0 <= a < |FirstOccurrences(s)| ==> FirstOccurrences(s)[a].id in IdsOf(s)
    ensures forall a, b :: 0 <= a < b < |FirstOccurrences(s)| ==>
              FirstIndex(s, FirstOccurrences(s)[a].id) < FirstIndex(s, FirstOccurrences(s)[b].id)
    decreases |s|
  {
    FirstOccurrencesFirst(s);
    if |s| > 0 {
      var init, last := s[..|s| - 1], s[|s| - 1];
      var d := FirstOccurrences(init);
      FirstOccurrencesOrdered(init);
      assert init + [last] == s;
      var r := FirstOccurrences(s);
      if last.id !in IdsOf(init) {
        forall a, b | 0 <= a < b < |r|
          ensures FirstIndex(s, r[a].id) < FirstIndex(s, r[b].id)
        {
          assert r[a] == d[a];
          FirstIndexSnoc(init, last, d[a].id);
          if b < |d| {
            assert r[b] == d[b];
            FirstIndexSnoc(init, last, d[b].id);
          }
        }
      } else {
        forall a | 0 <= a < |d|
          ensures FirstIndex(s, d[a].id) == FirstIndex(init, d[a].id)
        {
          FirstIndexSnoc(init, last, d[a].id);
        }
      }
    }
  }

  /** The deduplicated list has every id of the input exactly once, each as
      its first occurrence, in the order of first occurrence. */
  lemma FirstOccurrencesSpec(s: seq<PlaylistSummary>)
    ensures IdsOf(FirstOccurrences(s)) == IdsOf(s)
    ensures forall a :: 0 <= a < |FirstOccurrences(s)| ==>
              FirstOccurrences(s)[a] == s[FirstIndex(s, FirstOccurrences(s)[a].id)]
    ensures forall a, b :: 0 <= a < b < |FirstOccurrences(s)| ==>
              FirstIndex(s, FirstOccurrences(s)[a].id) < FirstIndex(s, FirstOccurrences(s)[b].id)
  {
    FirstOccurrencesIds(s);
    FirstOccurrencesFirst(s);
    FirstOccurrencesOrdered(s);
  }

  /** No two kept playlists share an id. */
  lemma FirstOccurrencesDistinct(s: seq<PlaylistSummary>)
    ensures forall a, b :: 0 <= a < b < |FirstOccurrences(s)| ==>
              FirstOccurrences(s)[a].id != FirstOccurrences(s)[b].id
  {
    FirstOccurrencesSpec(s);
  }

  /** One step of the dedup loop. */
  lemma FirstOccurrencesSnoc(s: seq<PlaylistSummary>, i: nat)
    requires i < |s|
    ensures IdsOf(s[..i + 1]) == IdsOf(s[..i]) + {s[i].id}
    ensures FirstOccurrences(s[..i + 1]) ==
              if s[i].id in IdsOf(s[..i]) then FirstOccurrences(s[..i]) else FirstOccurrences(s[..i]) + [s[i]]
  {
    var t := s[..i + 1];
    assert t[..i] == s[..i];
    assert forall k :: 0 <= k < i ==> t[k] == s[k];
  }

  /** The comparator's class: the playlist's id is a key of the form record. */
  function IsTracked(rec: FormRecord): PlaylistSummary -> bool {
    (p: PlaylistSummary) => p.id in KeySet(rec)
  }

  /** `sortedPlaylists`: drop repeated ids, keeping the first, then sort the
      tracked playlists before the untracked ones with a stable sort. */
  method SortedPlaylists(playlists: seq<PlaylistSummary>, rec: FormRecord)
    returns (sorted: seq<PlaylistSummary>)
    ensures sorted == StablePartition(FirstOccurrences(playlists), IsTracked(rec))
  {
    var playlistIdSet: set<string> := {};
    var kept: seq<PlaylistSummary> := [];
    for i := 0 to |playlists|
      invariant playlistIdSet == IdsOf(playlists[..i])
      invariant kept == FirstOccurrences(playlists[..i])
    {
      FirstOccurrencesSnoc(playlists, i);
      if playlists[i].id !in playlistIdSet {
        playlistIdSet := playlistIdSet + {playlists[i].id};
        kept := kept + [playlists[i]];
      }
    }
    assert playlists[..|playlists|] == playlists;
    sorted := StablePartition(kept, IsTracked(rec));
  }

  /** The shown list is a permutation of the deduplicated one, tracked
      playlists all come first, and each group keeps its order. */
  lemma SortedPlaylistsSpec(playlists: seq<PlaylistSummary>, rec: FormRecord)
    ensures var d := FirstOccurrences(playlists);
            var r := StablePartition(d, IsTracked(rec));
            && multiset(r) == multiset(d)
            && (forall i, j :: 0 <= i < j < |r| && !IsTracked(rec)(r[i]) ==> !IsTracked(rec)(r[j]))
            && Filter(r, IsTracked(rec)) == Filter(d, IsTracked(rec))
            && Filter(r, Not(IsTracked(rec))) == Filter(d, Not(IsTracked(rec)))
  {
    var d := FirstOccurrences(playlists);
    StablePartitionPermutes(d, IsTracked(rec));
    StablePartitionOrdered(d, IsTracked(rec));
    StablePartitionKeepsOrder(d, IsTracked(rec));
  }

  // The row image

  /** JavaScript truthiness of a width: present and non-zero. */
  predicate WidthTruthy(image: Image) {
    image.width.Some? && image.width.value != 0
  }

  /** The reduce step: the running choice gives way only when both widths
      are truthy and the new one is strictly smaller. */
  predicate Replaces(current: Image, smallest: Image) {
    WidthTruthy(current) && WidthTruthy(smallest) && current.width.value < smallest.width.value
  }

  /** The index the form's `reduce` ends on. */
  function RowImageIndex(images: seq<Image>): (k: nat)
    requires |images| > 0
    ensures k < |images|
    ensures k == 0 || WidthTruthy(images[k])
    ensures !WidthTruthy(images[0]) ==> k == 0
    ensures WidthTruthy(images[0]) ==>
              && WidthTruthy(images[k])
              && (forall j :: 0 <= j < |images| && WidthTruthy(images[j]) ==>
                    images[k].width.value <= images[j].width.value)
              && (forall j :: 0 <= j < k && WidthTruthy(images[j]) ==>
                    images[j].width.value > images[k].width.value)
    ensures (forall j :: 0 <= j < |images| ==> WidthTruthy(images[j])) ==>
              && (forall j :: 0 <= j < |images| ==> images[k].width.value <= images[j].width.value)
              && (forall j :: 0 <= j < k ==> images[j].width.value > images[k].width.value)
  {
    if |images| == 1 then 0
    else
      var k := RowImageIndex(images[..|images| - 1]);
      assert images[..|images| - 1][k] == images[k];
      assert images[..|images| - 1][0] == images[0];
      if Replaces(images[|images| - 1], images[k]) then |images| - 1 else k
  }

  /** The form's `getSmallestImage`: null for a missing or empty list. */
  function RowImage(images: Option<seq<Image>>): (r: Option<Image>)
    ensures r.None? <==> images.None? || |images.value| == 0
    ensures r.Some? ==> r.value == images.value[RowImageIndex(images.value)]
  {
    if images.None? || |images.value| == 0 then None
    else Some(images.value[RowImageIndex(images.value)])
  }

  /** When every width is truthy the form picks the same image as the track
      route's selector; a missing first width pins the choice to the first
      image whatever follows. */
  lemma RowImageAgreesWithTrackRoute(images: seq<Image>)
    requires |images| > 0
    ensures (forall j :: 0 <= j < |images| ==> WidthTruthy(images[j])) ==>
              RowImageIndex(images) == TrackCache.SmallestIndex(images)
    ensures !WidthTruthy(images[0]) ==> RowImage(Some(images)) == Some(images[0])
  {
    if forall j :: 0 <= j < |images| ==> WidthTruthy(images[j]) {
      assert forall j :: 0 <= j < |images| ==> TrackCache.EffectiveWidth(images[j]) == images[j].width.value;
    }
  }
}
