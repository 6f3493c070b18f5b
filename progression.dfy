/** How a lesson advances from one objective to the next: `giveInfo` names the current objective,
    `generateQuiz` quizzes on it, and a correct answer is meant to mark that checkpoint complete.
    As written, no checkpoint id reaches the quiz, so no checkpoint is ever marked; the
    corrected flow carries the id through and every correct answer closes one objective. */
module Progression {
  import opened Js
  import opened Schema
  import opened CheckpointActions
  import opened ChatRoute
  import opened MultipleChoice
  import opened ChatView

  /** The JSON a `generateQuiz` executor returns to the client, and so the part's `output`. */
  function QuizOutputJson(q: QuizObject): Json {
    JObj(map["question" := JStr(q.question), "options" := JArr(JStrings(q.options)), "answer" := JStr(q.answer)])
  }

  function JStrings(ss: seq<string>): (r: seq<Json>)
    ensures |r| == |ss| && forall i :: 0 <= i < |ss| ==> r[i] == JStr(ss[i])
  {
    if ss == [] then [] else [JStr(ss[0])] + JStrings(ss[1..])
  }

  /** The checkpoint table after the click's effects, with every update that is sent committing.
      `onComplete` only changes the chat view. */
  function AfterEffects(rows: seq<Checkpoint>, effects: seq<Effect>): (r: seq<Checkpoint>)
    ensures (forall e :: e in effects ==> e.OnCompleteCall? || e.checkpointId.None?) ==> r == rows
    decreases |effects|
  {
    if effects == [] then rows
    else
      var next := match effects[0]
        case CompleteCheckpointCall(checkpointId, _) => Completion(rows, checkpointId, Commits).1
        case OnCompleteCall => rows;
      AfterEffects(next, effects[1..])
  }

  /** The checkpoint table after a first, correct click on the quiz the chat builds from `output`. */
  function CorrectClick(rows: seq<Checkpoint>, lessonId: string, output: Json, q: QuizObject): (r: seq<Checkpoint>)
    ensures QuizCheckpointId(output).None? ==> r == rows
    ensures QuizCheckpointId(output).Some? ==> r == MarkComplete(rows, QuizCheckpointId(output).value)
  {
    var effects := ClickEffects(false, q.answer, q.answer, QuizCheckpointId(output), lessonId);
    assert effects == [CompleteCheckpointCall(QuizCheckpointId(output), lessonId), OnCompleteCall];
    AfterEffects(rows, effects)
  }

  // ------------------------------------------------------------ as written

  /** A quiz output carries no checkpoint id, so a correct answer changes no row and the next
      `giveInfo` call returns exactly what the previous one did. */
  lemma AsWrittenCorrectAnswerChangesNothing(lessonId: string, lessons: seq<Lesson>, rows: seq<Checkpoint>,
                                            q: QuizObject, explain: (string, string) -> ToolOutcome<string>)
    ensures QuizCheckpointId(QuizOutputJson(q)) == None
    ensures forall p :: Completion(rows, QuizCheckpointId(QuizOutputJson(q)), p).0 == Failure(UpdateFailedMessage)
    ensures CorrectClick(rows, lessonId, QuizOutputJson(q), q) == rows
    ensures GiveInfo(Some(lessonId), lessons, CorrectClick(rows, lessonId, QuizOutputJson(q), q), explain)
         == GiveInfo(Some(lessonId), lessons, rows, explain)
  {
    assert "checkpointId" !in QuizOutputJson(q).fields;
    var effects := ClickEffects(false, q.answer, q.answer, None, lessonId);
    assert effects == [CompleteCheckpointCall(None, lessonId), OnCompleteCall];
    assert AfterEffects(rows, effects) == AfterEffects(rows, effects[1..]);
    assert AfterEffects(rows, effects[1..]) == AfterEffects(rows, []);
  }

  /** A one-objective lesson: after a correct answer its objective is still the open one. */
  lemma AsWrittenLessonStaysOnFirstObjective()
    ensures var rows := [Checkpoint("c1", "l1", 0, "Define entropy", false)];
      var q := QuizObject("What is entropy?", ["a", "b", "c", "d"], "a");
      var after := CorrectClick(rows, "l1", QuizOutputJson(q), q);
      CurrentCheckpoint(after, "l1") == Some(rows[0])
  {
    var rows := [Checkpoint("c1", "l1", 0, "Define entropy", false)];
    var q := QuizObject("What is entropy?", ["a", "b", "c", "d"], "a");
    AsWrittenCorrectAnswerChangesNothing("l1", [], rows, q, (_, _) => Threw(""));
    assert IsOpen(rows[0], "l1");
  }

  // ------------------------------------------------------------ corrected

  /** `giveInfo` returning the id of the checkpoint whose objective it explains. */
  datatype TrackedInfo = TrackedInfo(output: InfoOutput, checkpointId: Option<string>)

  function GiveInfoTracked(lessonId: Option<string>, lessons: seq<Lesson>, rows: seq<Checkpoint>,
                           explain: (string, string) -> ToolOutcome<string>): (r: ToolOutcome<TrackedInfo>)
    ensures r.Threw? <==> GiveInfo(lessonId, lessons, rows, explain).Threw?
    ensures r.Returned? ==> GiveInfo(lessonId, lessons, rows, explain) == Returned(r.value.output)
    ensures r.Returned? ==> (r.value.checkpointId.Some? <==> r.value.output.Info? && r.value.output.objective.Some?)
    ensures r.Returned? && r.value.checkpointId.Some? ==>
      exists c :: IsLowestOpen(rows, lessonId.value, c)
        && c.id == r.value.checkpointId.value && c.objective == r.value.output.objective.value
  {
    match GiveInfo(lessonId, lessons, rows, explain)
    case Threw(m) => Threw(m)
    case Returned(o) =>
      if o.Info? && o.objective.Some? then
        Returned(TrackedInfo(o, Some(CurrentCheckpoint(rows, lessonId.value).value.id)))
      else Returned(TrackedInfo(o, None))
  }

  /** The quiz output with the checkpoint id `generateQuiz` would be handed and echo back. */
  function QuizOutputJsonFor(q: QuizObject, checkpointId: string): (j: Json)
    ensures QuizCheckpointId(j) == Some(checkpointId)
  {
    JObj(QuizOutputJson(q).fields["checkpointId" := JStr(checkpointId)])
  }

  /** Open checkpoints of a lesson. */
  function OpenCount(rows: seq<Checkpoint>, lessonId: string): (n: nat)
    ensures n == 0 <==> !HasOpen(rows, lessonId)
    ensures n <= |rows|
  {
    if rows == [] then 0
    else
      assert forall c :: c in rows && c != rows[0] ==> c in rows[1..];
      (if IsOpen(rows[0], lessonId) then 1 else 0) + OpenCount(rows[1..], lessonId)
  }

  /** Marking one open checkpoint of the lesson, when ids are unique, closes exactly one. */
  lemma {:induction false} MarkOneOpen(rows: seq<Checkpoint>, lessonId: string, c: Checkpoint)
    requires CheckpointIdsUnique(rows) && c in rows && IsOpen(c, lessonId)
    ensures OpenCount(MarkComplete(rows, c.id), lessonId) == OpenCount(rows, lessonId) - 1
  {
    var r := MarkComplete(rows, c.id);
    var tail := MarkComplete(rows[1..], c.id);
    assert r == [r[0]] + tail;
    assert r[1..] == tail;
    assert OpenCount(r, lessonId) == (if IsOpen(r[0], lessonId) then 1 else 0) + OpenCount(tail, lessonId);
    assert CheckpointIdsUnique(rows[1..]) by {
      forall i, j | 0 <= i < j < |rows[1..]| ensures rows[1..][i].id != rows[1..][j].id {
        assert rows[1..][i] == rows[i + 1] && rows[1..][j] == rows[j + 1];
      }
    }
    if rows[0].id == c.id {
      assert rows[0] == c by {
        var j :| 0 <= j < |rows| && rows[j] == c;
        assert j == 0;
      }
      assert !CheckpointExists(rows[1..], c.id) by {
        forall k | 0 <= k < |rows[1..]| ensures rows[1..][k].id != c.id {
          assert rows[1..][k] == rows[k + 1];
        }
      }
      MarkCompleteUnmatched(rows[1..], c.id);
      assert SameExceptComplete(r[0], rows[0]);
      assert !IsOpen(r[0], lessonId);
    } else {
      assert c in rows[1..];
      assert r[0] == rows[0];
      MarkOneOpen(rows[1..], lessonId, c);
    }
  }

  /** The update touches no id, so uniqueness of ids survives it. */
  lemma MarkCompleteKeepsIds(rows: seq<Checkpoint>, checkpointId: string)
    ensures CheckpointIdsUnique(rows) ==> CheckpointIdsUnique(MarkComplete(rows, checkpointId))
    ensures forall i :: 0 <= i < |rows| ==> MarkComplete(rows, checkpointId)[i].id == rows[i].id
  {
    var r := MarkComplete(rows, checkpointId);
    forall i | 0 <= i < |rows| ensures r[i].id == rows[i].id {
      assert SameExceptComplete(r[i], rows[i]);
      assert r[i].(complete := false).id == r[i].id;
    }
  }

  /** A correct click on a quiz carrying `checkpointId` is one committed update of that row. */
  lemma CorrectClickWithId(rows: seq<Checkpoint>, lessonId: string, q: QuizObject, checkpointId: string)
    ensures CorrectClick(rows, lessonId, QuizOutputJsonFor(q, checkpointId), q) == MarkComplete(rows, checkpointId)
  {
    var effects := ClickEffects(false, q.answer, q.answer, Some(checkpointId), lessonId);
    assert effects == [CompleteCheckpointCall(Some(checkpointId), lessonId), OnCompleteCall];
    var marked := MarkComplete(rows, checkpointId);
    assert AfterEffects(rows, effects) == AfterEffects(marked, effects[1..]);
    assert AfterEffects(marked, effects[1..]) == AfterEffects(marked, []);
  }

  /** Marking an open checkpoint of the lesson closes it and exactly it. */
  lemma CloseOpen(rows: seq<Checkpoint>, lessonId: string, c: Checkpoint)
    requires CheckpointIdsUnique(rows) && c in rows && IsOpen(c, lessonId)
    ensures var after := MarkComplete(rows, c.id);
      && OpenCount(after, lessonId) == OpenCount(rows, lessonId) - 1
      && CheckpointIdsUnique(after)
      && (forall d :: d in after && d.id == c.id ==> !IsOpen(d, lessonId))
  {
    var after := MarkComplete(rows, c.id);
    MarkOneOpen(rows, lessonId, c);
    MarkCompleteKeepsIds(rows, c.id);
    forall d | d in after && d.id == c.id ensures !IsOpen(d, lessonId) {
      var k :| 0 <= k < |after| && after[k] == d;
      assert rows[k].id == c.id;
    }
  }

  /** With the id carried through, a correct answer closes the objective just explained and
      nothing else, and that checkpoint is no longer current. */
  lemma CorrectedAnswerAdvances(lessonId: string, lessons: seq<Lesson>, rows: seq<Checkpoint>,
                                q: QuizObject, explain: (string, string) -> ToolOutcome<string>)
    requires lessonId != "" && CheckpointIdsUnique(rows)
    requires GiveInfoTracked(Some(lessonId), lessons, rows, explain).Returned?
    requires GiveInfoTracked(Some(lessonId), lessons, rows, explain).value.checkpointId.Some?
    ensures var id := GiveInfoTracked(Some(lessonId), lessons, rows, explain).value.checkpointId.value;
      var after := CorrectClick(rows, lessonId, QuizOutputJsonFor(q, id), q);
      && OpenCount(after, lessonId) == OpenCount(rows, lessonId) - 1
      && CheckpointIdsUnique(after)
      && (forall d :: d in after && d.id == id ==> !IsOpen(d, lessonId))
  {
    var t := GiveInfoTracked(Some(lessonId), lessons, rows, explain);
    var id := t.value.checkpointId.value;
    var c :| IsLowestOpen(rows, lessonId, c) && c.id == id;
    CorrectClickWithId(rows, lessonId, q, id);
    CloseOpen(rows, lessonId, c);
  }

  /** One corrected study turn: explain the current objective, quiz on it, answer correctly.
      `CorrectedTurnIsChain` shows it is that chain whenever `giveInfo` explains an objective. */
  function CorrectedTurn(rows: seq<Checkpoint>, lessonId: string): (r: seq<Checkpoint>)
    ensures |r| == |rows|
    ensures !HasOpen(rows, lessonId) ==> r == rows
  {
    match CurrentCheckpoint(rows, lessonId)
    case None => rows
    case Some(c) => MarkComplete(rows, c.id)
  }

  /** When the tracked `giveInfo` explains an objective, a correct click on the quiz carrying
      its id leaves the table exactly as `CorrectedTurn` does. */
  lemma CorrectedTurnIsChain(lessonId: string, lessons: seq<Lesson>, rows: seq<Checkpoint>,
                             q: QuizObject, explain: (string, string) -> ToolOutcome<string>)
    requires GiveInfoTracked(Some(lessonId), lessons, rows, explain).Returned?
    requires GiveInfoTracked(Some(lessonId), lessons, rows, explain).value.checkpointId.Some?
    ensures var id := GiveInfoTracked(Some(lessonId), lessons, rows, explain).value.checkpointId.value;
      CorrectClick(rows, lessonId, QuizOutputJsonFor(q, id), q) == CorrectedTurn(rows, lessonId)
  {
    var t := GiveInfoTracked(Some(lessonId), lessons, rows, explain);
    var id := t.value.checkpointId.value;
    assert CurrentCheckpoint(rows, lessonId).Some? && CurrentCheckpoint(rows, lessonId).value.id == id;
  }

  /** `turns` corrected turns in a row. */
  function CorrectedSession(rows: seq<Checkpoint>, lessonId: string, turns: nat): seq<Checkpoint>
    decreases turns
  {
    if turns == 0 then rows else CorrectedSession(CorrectedTurn(rows, lessonId), lessonId, turns - 1)
  }

  /** One corrected turn on a lesson with an open objective closes exactly one objective. */
  lemma TurnClosesOne(rows: seq<Checkpoint>, lessonId: string)
    requires CheckpointIdsUnique(rows) && HasOpen(rows, lessonId)
    ensures CheckpointIdsUnique(CorrectedTurn(rows, lessonId))
    ensures OpenCount(CorrectedTurn(rows, lessonId), lessonId) == OpenCount(rows, lessonId) - 1
  {
    var c := CurrentCheckpoint(rows, lessonId).value;
    MarkOneOpen(rows, lessonId, c);
    MarkCompleteKeepsIds(rows, c.id);
  }

  /** `n` corrected turns on a lesson with `n` open objectives leave none open. */
  lemma {:induction false} CorrectedSessionClosesAll(rows: seq<Checkpoint>, lessonId: string, n: nat)
    requires CheckpointIdsUnique(rows) && OpenCount(rows, lessonId) == n
    ensures !HasOpen(CorrectedSession(rows, lessonId, n), lessonId)
    decreases n
  {
    if n > 0 {
      var next := CorrectedTurn(rows, lessonId);
      TurnClosesOne(rows, lessonId);
      CorrectedSessionClosesAll(next, lessonId, n - 1);
    }
  }

  /** As many correct answers as there are open objectives finish the lesson: `giveInfo` then
      reports every objective complete. */
  lemma CorrectedSessionFinishes(rows: seq<Checkpoint>, lessonId: string,
                                 lessons: seq<Lesson>, explain: (string, string) -> ToolOutcome<string>)
    requires lessonId != "" && CheckpointIdsUnique(rows)
    ensures GiveInfo(Some(lessonId), lessons, CorrectedSession(rows, lessonId, OpenCount(rows, lessonId)), explain)
         == Returned(Info(AllObjectivesCompleteMessage, None))
  {
    CorrectedSessionClosesAll(rows, lessonId, OpenCount(rows, lessonId));
  }
}
