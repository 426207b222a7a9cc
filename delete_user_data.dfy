/** The account-data deletion action: three categories, each skipped unless
    asked for, then marked a success or an error with a message. */
module DeleteUserData {

  datatype Status = Skipped | Success | Error

  datatype CategoryResult = CategoryResult(status: Status, message: string)

  datatype DeleteResult = DeleteResult(
    deleteSnapshots: CategoryResult,
    deleteRemovedSongs: CategoryResult,
    deleteTrackedPlaylists: CategoryResult)

  /** Which categories the form asked to delete. */
  datatype DeleteRequest = DeleteRequest(deleteSnapshots: bool, deleteRemovedSongs: bool, deleteTrackedPlaylists: bool)

  /** Whether each deletion the action may attempt fails. */
  datatype Failures = Failures(
    snapshotsStorage: bool,
    snapshotsRows: bool,
    removedSongsRows: bool,
    trackedPlaylistsRows: bool)

  /** A deletion the action attempts. */
  datatype Deletion = RemoveSnapshotFiles | DeleteSnapshotRows | DeleteRemovedSongRows | DeleteTrackedPlaylistRows

  datatype Response =
    | Unauthenticated          // 401 `User Not Authenticated`
    | Done(data: DeleteResult) // 200, success

  const SNAPSHOTS_STORAGE_ERROR: string := "Unable to delete snapshots from storage"
  const SNAPSHOTS_DB_ERROR: string := "Unable to delete snapshots from database"
  const REMOVED_SONGS_ERROR: string := "Unable to delete removed songs from database"
  const TRACKED_PLAYLISTS_ERROR: string := "Unable to delete tracked playlists from database"

  /** The status of a category after a single delete: skipped when not asked
      for, otherwise success exactly when the delete raised no error. */
  function SingleOutcome(asked: bool, failed: bool, message: string): (r: CategoryResult)
    ensures r.status == Skipped <==> !asked
    ensures r.status == Success <==> asked && !failed
    ensures r.status == Error <==> asked && failed
    ensures r.message == if asked && failed then message else ""
  {
    if !asked then CategoryResult(Skipped, "")
    else if failed then CategoryResult(Error, message)
    else CategoryResult(Success, "")
  }

  /** The snapshot category, whose files go first and rows second: a
      success exactly when both deletes succeed, and the storage error wins
      since the rows are then left alone. */
  function SnapshotsOutcome(asked: bool, storageFailed: bool, rowsFailed: bool): (r: CategoryResult)
    ensures r.status == Skipped <==> !asked
    ensures r.status == Success <==> asked && !storageFailed && !rowsFailed
    ensures r.status == Error <==> asked && (storageFailed || rowsFailed)
    ensures r.message == if !asked then "" else if storageFailed then SNAPSHOTS_STORAGE_ERROR
                         else if rowsFailed then SNAPSHOTS_DB_ERROR else ""
  {
    if !asked then CategoryResult(Skipped, "")
    else if storageFailed then CategoryResult(Error, SNAPSHOTS_STORAGE_ERROR)
    else if rowsFailed then CategoryResult(Error, SNAPSHOTS_DB_ERROR)
    else CategoryResult(Success, "")
  }

  /** `deleteUserData`: `signedIn` says whether a user is signed in;
      `attempted` lists the deletions tried, in order. */
  method DeleteUserData(signedIn: bool, formData: DeleteRequest, failures: Failures)
    returns (response: Response, attempted: seq<Deletion>)
    ensures !signedIn ==> response == Unauthenticated && attempted == []
    ensures signedIn ==> response.Done?
    ensures signedIn ==>
              && response.data.deleteSnapshots ==
                   SnapshotsOutcome(formData.deleteSnapshots, failures.snapshotsStorage, failures.snapshotsRows)
              && response.data.deleteRemovedSongs ==
                   SingleOutcome(formData.deleteRemovedSongs, failures.removedSongsRows, REMOVED_SONGS_ERROR)
              && response.data.deleteTrackedPlaylists ==
                   SingleOutcome(formData.deleteTrackedPlaylists, failures.trackedPlaylistsRows, TRACKED_PLAYLISTS_ERROR)
    ensures signedIn ==>
              attempted ==
                (if formData.deleteSnapshots then
                   [RemoveSnapshotFiles] + (if failures.snapshotsStorage then [] else [DeleteSnapshotRows])
                 else []) +
                (if formData.deleteRemovedSongs then [DeleteRemovedSongRows] else []) +
                (if formData.deleteTrackedPlaylists then [DeleteTrackedPlaylistRows] else [])
  {
    if !signedIn {
      return Unauthenticated, [];
    }
    attempted := [];
    var deleteSnapshots := CategoryResult(Skipped, "");
    var deleteRemovedSongs := CategoryResult(Skipped, "");
    var deleteTrackedPlaylists := CategoryResult(Skipped, "");

    if formData.deleteSnapshots {
      attempted := attempted + [RemoveSnapshotFiles];
      if failures.snapshotsStorage {
        deleteSnapshots := CategoryResult(Error, SNAPSHOTS_STORAGE_ERROR);
      } else {
        attempted := attempted + [DeleteSnapshotRows];
        if failures.snapshotsRows {
          deleteSnapshots := CategoryResult(Error, SNAPSHOTS_DB_ERROR);
        }
      }
      if deleteSnapshots.status == Skipped {
        deleteSnapshots := deleteSnapshots.(status := Success);
      }
    }

    if formData.deleteRemovedSongs {
      attempted := attempted + [DeleteRemovedSongRows];
      if failures.removedSongsRows {
        deleteRemovedSongs := CategoryResult(Error, REMOVED_SONGS_ERROR);
      } else {
        deleteRemovedSongs := deleteRemovedSongs.(status := Success);
      }
    }

    if formData.deleteTrackedPlaylists {
      attempted := attempted + [DeleteTrackedPlaylistRows];
      if failures.trackedPlaylistsRows {
        deleteTrackedPlaylists := CategoryResult(Error, TRACKED_PLAYLISTS_ERROR);
      } else {
        deleteTrackedPlaylists := deleteTrackedPlaylists.(status := Success);
      }
    }

    response := Done(DeleteResult(deleteSnapshots, deleteRemovedSongs, deleteTrackedPlaylists));
  }
}
