/** The `lessons` and `checkpoints` tables and their relations, with the columns the
    application reads but the table declarations omit (`source`, `mode`, `order`, `objective`). */
module Schema {
  import opened Js

  /** The four study methods a lesson can be studied with. */
  datatype LessonMode = Song | Teach | Flashcard | Rehearse

  function ModeName(m: LessonMode): (r: string)
    ensures HasNoUpper(r)
  {
    match m
    case Song => "song"
    case Teach => "teach"
    case Flashcard => "flashcard"
    case Rehearse => "rehearse"
  }

  const EmbeddingDimensions: nat := 1536

  datatype Lesson = Lesson(
    id: string,
    source: Option<string>,
    mode: Option<LessonMode>,
    embedding: Option<seq<real>>)

  datatype Checkpoint = Checkpoint(
    id: string,
    lessonId: string,
    order: int,
    objective: string,
    complete: bool)

  predicate LessonIdsUnique(lessons: seq<Lesson>) {
    forall i, j :: 0 <= i < j < |lessons| ==> lessons[i].id != lessons[j].id
  }

  predicate CheckpointIdsUnique(rows: seq<Checkpoint>) {
    forall i, j :: 0 <= i < j < |rows| ==> rows[i].id != rows[j].id
  }

  predicate LessonExists(lessons: seq<Lesson>, id: string) {
    exists i :: 0 <= i < |lessons| && lessons[i].id == id
  }

  predicate CheckpointExists(rows: seq<Checkpoint>, id: string) {
    exists i :: 0 <= i < |rows| && rows[i].id == id
  }

  predicate LessonIdsReferenced(lessons: seq<Lesson>, rows: seq<Checkpoint>) {
    forall i :: 0 <= i < |rows| ==> LessonExists(lessons, rows[i].lessonId)
  }

  predicate EmbeddingsSized(lessons: seq<Lesson>) {
    forall i :: 0 <= i < |lessons| && lessons[i].embedding.Some? ==>
      |lessons[i].embedding.value| == EmbeddingDimensions
  }

  /** The constraints the database enforces: both primary keys, the foreign key
      `checkpoints.lesson_id -> lessons.id`, and the vector column's dimension. */
  predicate WellFormed(lessons: seq<Lesson>, rows: seq<Checkpoint>) {
    && LessonIdsUnique(lessons)
    && CheckpointIdsUnique(rows)
    && LessonIdsReferenced(lessons, rows)
    && EmbeddingsSized(lessons)
  }

  /** A checkpoint of the given lesson that is not yet complete. */
  predicate IsOpen(c: Checkpoint, lessonId: string) {
    c.lessonId == lessonId && !c.complete
  }

  predicate HasOpen(rows: seq<Checkpoint>, lessonId: string) {
    exists c :: c in rows && IsOpen(c, lessonId)
  }

  /** `db.query.lesson.findFirst({ where: eq(lesson.id, id) })`. */
  function LessonById(lessons: seq<Lesson>, id: string): (r: Option<Lesson>)
    ensures r.Some? ==> r.value in lessons && r.value.id == id
    ensures r.None? <==> !LessonExists(lessons, id)
  {
    if lessons == [] then None
    else if lessons[0].id == id then Some(lessons[0])
    else
      var rest := LessonById(lessons[1..], id);
      assert LessonExists(lessons, id) ==> LessonExists(lessons[1..], id) by {
        if LessonExists(lessons, id) {
          var i :| 0 <= i < |lessons| && lessons[i].id == id;
          assert lessons[1..][i - 1].id == id;
        }
      }
      assert LessonExists(lessons[1..], id) ==> LessonExists(lessons, id) by {
        if LessonExists(lessons[1..], id) {
          var i :| 0 <= i < |lessons[1..]| && lessons[1..][i].id == id;
          assert lessons[i + 1].id == id;
        }
      }
      rest
  }

  /** Outcome of an INSERT under the table constraints. */
  datatype Insert<T> = Inserted(rows: seq<T>) | ConstraintViolation

  /** Inserting a lesson row; `id` is the fresh UUID `crypto.randomUUID()` produced. */
  function InsertLesson(lessons: seq<Lesson>, id: string, source: Option<string>,
                        embedding: Option<seq<real>>): (r: Insert<Lesson>)
    ensures r.ConstraintViolation? <==>
      LessonExists(lessons, id) || (embedding.Some? && |embedding.value| != EmbeddingDimensions)
    ensures r.Inserted? ==> r.rows == lessons + [Lesson(id, source, None, embedding)]
    ensures r.Inserted? && LessonIdsUnique(lessons) && EmbeddingsSized(lessons) ==>
      LessonIdsUnique(r.rows) && EmbeddingsSized(r.rows)
  {
    if LessonExists(lessons, id) || (embedding.Some? && |embedding.value| != EmbeddingDimensions) then
      ConstraintViolation
    else
      Inserted(lessons + [Lesson(id, source, None, embedding)])
  }

  /** Inserting a checkpoint row; `complete` takes its column default, false. */
  function InsertCheckpoint(lessons: seq<Lesson>, rows: seq<Checkpoint>, id: string,
                            lessonId: string, order: int, objective: string): (r: Insert<Checkpoint>)
    ensures r.ConstraintViolation? <==> CheckpointExists(rows, id) || !LessonExists(lessons, lessonId)
    ensures r.Inserted? ==> |r.rows| == |rows| + 1 && r.rows[..|rows|] == rows
    ensures r.Inserted? ==> var c := r.rows[|rows|];
      c.id == id && c.lessonId == lessonId && c.order == order && c.objective == objective && !c.complete
    ensures r.Inserted? && WellFormed(lessons, rows) ==> WellFormed(lessons, r.rows)
  {
    if CheckpointExists(rows, id) || !LessonExists(lessons, lessonId) then
      ConstraintViolation
    else
      var r := rows + [Checkpoint(id, lessonId, order, objective, false)];
      assert forall i :: 0 <= i < |rows| ==> r[i] == rows[i];
      Inserted(r)
  }

  /** The `many` side of the relation: the checkpoints that belong to a lesson, in table order. */
  function CheckpointsOf(rows: seq<Checkpoint>, lessonId: string): (r: seq<Checkpoint>)
    ensures forall c :: c in r <==> c in rows && c.lessonId == lessonId
    ensures |r| <= |rows|
  {
    if rows == [] then []
    else if rows[0].lessonId == lessonId then [rows[0]] + CheckpointsOf(rows[1..], lessonId)
    else CheckpointsOf(rows[1..], lessonId)
  }

  /** The `one` side of the relation: the lesson a checkpoint belongs to. */
  function LessonOf(lessons: seq<Lesson>, c: Checkpoint): Option<Lesson> {
    LessonById(lessons, c.lessonId)
  }

  lemma LessonByIdUnique(lessons: seq<Lesson>, l: Lesson)
    requires LessonIdsUnique(lessons)
    requires l in lessons
    ensures LessonById(lessons, l.id) == Some(l)
    decreases |lessons|
  {
    if lessons[0] != l {
      assert l in lessons[1..];
      var k :| 0 <= k < |lessons[1..]| && lessons[1..][k] == l;
      assert lessons[0].id != lessons[k + 1].id;
      LessonByIdUnique(lessons[1..], l);
    }
  }

  /** In a well-formed database every checkpoint row relates to exactly one lesson row,
      and appears among that lesson's checkpoints and no other lesson's. */
  lemma CheckpointHasExactlyOneLesson(lessons: seq<Lesson>, rows: seq<Checkpoint>, i: nat)
    requires WellFormed(lessons, rows)
    requires i < |rows|
    ensures LessonOf(lessons, rows[i]).Some?
    ensures LessonOf(lessons, rows[i]).value.id == rows[i].lessonId
    ensures forall l :: l in lessons && l.id == rows[i].lessonId ==> LessonOf(lessons, rows[i]) == Some(l)
    ensures forall lid :: rows[i] in CheckpointsOf(rows, lid) <==> lid == rows[i].lessonId
  {
    assert LessonExists(lessons, rows[i].lessonId);
    forall l | l in lessons && l.id == rows[i].lessonId
      ensures LessonOf(lessons, rows[i]) == Some(l)
    {
      LessonByIdUnique(lessons, l);
    }
  }

  /** The live tables. `completeCheckpoint` is the one operation that writes to them in place. */
  class Database {
    var lessons: seq<Lesson>
    var checkpoints: seq<Checkpoint>

    ghost predicate Valid()
      reads this
    {
      WellFormed(lessons, checkpoints)
    }

    constructor (lessons: seq<Lesson>, checkpoints: seq<Checkpoint>)
      requires WellFormed(lessons, checkpoints)
      ensures Valid()
      ensures this.lessons == lessons && this.checkpoints == checkpoints
    {
      this.lessons := lessons;
      this.checkpoints := checkpoints;
    }
  }
}
