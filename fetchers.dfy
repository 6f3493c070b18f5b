/** `getCurrentCheckpoint`, defined identically in two files: a filtered lookup with no ordering. */
module Fetchers {
  import opened Js
  import opened Schema
  import ChatRoute

  /** `findFirst({ where: and(eq(lessonId), eq(complete, false)) })` with no `orderBy`:
      the database returns a matching row in whatever order it scans the table. The model
      takes the table order `rows` as that scan order, so it returns the first match. */
  function GetCurrentCheckpoint(rows: seq<Checkpoint>, lessonId: string): (r: Option<Checkpoint>)
    ensures r.Some? ==> r.value in rows && r.value.lessonId == lessonId && !r.value.complete
    ensures r.None? <==> !HasOpen(rows, lessonId)
  {
    if rows == [] then None
    else if IsOpen(rows[0], lessonId) then Some(rows[0])
    else
      var rest := GetCurrentCheckpoint(rows[1..], lessonId);
      assert forall c :: c in rows && c != rows[0] ==> c in rows[1..];
      rest
  }

  /** No row is preferred: for every open checkpoint of the lesson there is a scan order of
      the same table (a rotation of it) under which that checkpoint is the one returned. */
  lemma AnyOpenCheckpointMayBeReturned(rows: seq<Checkpoint>, lessonId: string, i: nat)
    requires i < |rows| && IsOpen(rows[i], lessonId)
    ensures multiset(rows[i..] + rows[..i]) == multiset(rows)
    ensures GetCurrentCheckpoint(rows[i..] + rows[..i], lessonId) == Some(rows[i])
  {
    assert rows[i..] + rows[..i] == [rows[i]] + (rows[i + 1..] + rows[..i]);
    assert rows == rows[..i] + rows[i..];
  }

  /** With two open objectives stored out of order, the fetcher's pick and the chat's
      lowest-`order` pick differ. */
  lemma FetcherDiffersFromChatPick()
    ensures var rows := [Checkpoint("b", "l", 2, "second", false), Checkpoint("a", "l", 1, "first", false)];
      GetCurrentCheckpoint(rows, "l") == Some(rows[0]) && ChatRoute.CurrentCheckpoint(rows, "l") == Some(rows[1])
  {
    var rows := [Checkpoint("b", "l", 2, "second", false), Checkpoint("a", "l", 1, "first", false)];
    assert IsOpen(rows[1], "l");
    assert ChatRoute.CurrentCheckpoint(rows[1..], "l") == Some(rows[1]);
  }
}
