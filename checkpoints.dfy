/** The `completeCheckpoint` server action: a single UPDATE of the `complete` column. */
module CheckpointActions {
  import opened Js
  import opened Schema

  datatype ActionResult = Success | Failure(error: string)

  const UpdateFailedMessage: string := "Failed to update checkpoint."

  /** What the persistence layer does with the call: the UPDATE commits and the cache
      revalidation returns, the UPDATE itself throws, or the UPDATE commits and
      `revalidatePath` throws afterwards (both throws land in the same `catch`). */
  datatype Persistence = Commits | UpdateThrows | RevalidateThrows

  /** The two rows agree on every column except possibly `complete`. */
  predicate SameExceptComplete(a: Checkpoint, b: Checkpoint) {
    a.(complete := false) == b.(complete := false)
  }

  /** `UPDATE checkpoints SET complete = true WHERE id = checkpointId`. */
  function MarkComplete(rows: seq<Checkpoint>, checkpointId: string): (r: seq<Checkpoint>)
    ensures |r| == |rows|
    ensures forall i :: 0 <= i < |rows| ==> SameExceptComplete(r[i], rows[i])
    ensures forall i :: 0 <= i < |rows| ==> r[i].complete == (rows[i].complete || rows[i].id == checkpointId)
  {
    if rows == [] then []
    else
      [if rows[0].id == checkpointId then rows[0].(complete := true) else rows[0]]
        + MarkComplete(rows[1..], checkpointId)
  }

  /** Completing twice is the same as completing once. */
  lemma MarkCompleteIdempotent(rows: seq<Checkpoint>, checkpointId: string)
    ensures MarkComplete(MarkComplete(rows, checkpointId), checkpointId) == MarkComplete(rows, checkpointId)
  {
    var once := MarkComplete(rows, checkpointId);
    var twice := MarkComplete(once, checkpointId);
    forall i | 0 <= i < |rows| ensures twice[i] == once[i] {
      assert SameExceptComplete(twice[i], once[i]);
    }
  }

  /** An id that matches no row leaves the table as it was. */
  lemma MarkCompleteUnmatched(rows: seq<Checkpoint>, checkpointId: string)
    requires !CheckpointExists(rows, checkpointId)
    ensures MarkComplete(rows, checkpointId) == rows
  {
    var r := MarkComplete(rows, checkpointId);
    forall i | 0 <= i < |rows| ensures r[i] == rows[i] {
      assert SameExceptComplete(r[i], rows[i]);
      assert rows[i].id != checkpointId;
    }
  }

  /** The update never touches the columns the constraints are about, so they keep holding. */
  lemma MarkCompleteWellFormed(lessons: seq<Lesson>, rows: seq<Checkpoint>, checkpointId: string)
    requires WellFormed(lessons, rows)
    ensures WellFormed(lessons, MarkComplete(rows, checkpointId))
  {
    var r := MarkComplete(rows, checkpointId);
    forall i | 0 <= i < |r| ensures r[i].id == rows[i].id && r[i].lessonId == rows[i].lessonId {
      assert SameExceptComplete(r[i], rows[i]);
      assert r[i].(complete := false).id == r[i].id;
      assert rows[i].(complete := false).id == rows[i].id;
    }
  }

  /** What `completeCheckpoint` answers and leaves in the table. The id is typed as a string, but
      a caller can pass `undefined`; the postgres.js driver refuses an undefined query parameter
      (its UNDEFINED_VALUE error) when the statement is sent, inside the `try`, so that call ends
      like a throwing update. */
  function Completion(rows: seq<Checkpoint>, checkpointId: Option<string>, persistence: Persistence)
    : (out: (ActionResult, seq<Checkpoint>))
    ensures out.0 == Success <==> checkpointId.Some? && persistence == Commits
    ensures out.0.Failure? ==> out.0.error == UpdateFailedMessage
    ensures checkpointId.None? || persistence == UpdateThrows ==> out.1 == rows
    ensures checkpointId.Some? && persistence != UpdateThrows ==> out.1 == MarkComplete(rows, checkpointId.value)
  {
    var updated := if checkpointId.None? || persistence == UpdateThrows then rows
                   else MarkComplete(rows, checkpointId.value);
    (if checkpointId.Some? && persistence == Commits then Success else Failure(UpdateFailedMessage), updated)
  }

  /** An undefined id never changes the table and always answers failure. */
  lemma UndefinedIdFails(rows: seq<Checkpoint>, persistence: Persistence)
    ensures Completion(rows, None, persistence) == (Failure(UpdateFailedMessage), rows)
  {
  }

  /** `completeCheckpoint(checkpointId, lessonId)`. The update is not filtered by
      `lessonId` (it only names the page whose cache is revalidated), and no check is made
      that a row matched. */
  method CompleteCheckpoint(db: Database, checkpointId: Option<string>, lessonId: string, persistence: Persistence)
    returns (r: ActionResult)
    requires db.Valid()
    modifies db`checkpoints
    ensures db.Valid()
    ensures (r, db.checkpoints) == Completion(old(db.checkpoints), checkpointId, persistence)
  {
    if checkpointId.None? || persistence == UpdateThrows {
      return Failure(UpdateFailedMessage);
    }
    MarkCompleteWellFormed(db.lessons, db.checkpoints, checkpointId.value);
    db.checkpoints := MarkComplete(db.checkpoints, checkpointId.value);
    if persistence == RevalidateThrows {
      return Failure(UpdateFailedMessage);
    }
    return Success;
  }

  /** Calling the action twice after a committed first call: the second call also
      succeeds and the table is as after the first. */
  method CompleteTwice(db: Database, checkpointId: string, lessonId: string)
    returns (first: ActionResult, second: ActionResult)
    requires db.Valid()
    modifies db`checkpoints
    ensures db.Valid()
    ensures first == Success && second == Success
    ensures db.checkpoints == MarkComplete(old(db.checkpoints), checkpointId)
  {
    first := CompleteCheckpoint(db, Some(checkpointId), lessonId, Commits);
    second := CompleteCheckpoint(db, Some(checkpointId), lessonId, Commits);
    MarkCompleteIdempotent(old(db.checkpoints), checkpointId);
  }
}
