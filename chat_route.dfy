/** The chat endpoint: the agent configuration it builds and the executors of its three tools.
    The model calls (`generateText`, `generateObject`) and the song service are parameters. */
module ChatRoute {
  import opened Js
  import opened Schema

  /** `stopWhen: stepCountIs(maxStepCount)`. */
  const MaxStepCount: nat := 2

  datatype ToolName = GenerateSongTool | GiveInfoTool | GenerateQuizTool

  /** The request body as the client sends it; the handler destructures only
      `messages` and `lessonId`. */
  datatype ChatBody = ChatBody(messages: seq<Json>, lessonId: Option<string>, mode: Option<string>)

  datatype AgentConfig = AgentConfig(maxSteps: nat, tools: set<ToolName>, lessonId: Option<string>, messages: seq<Json>)

  /** What `POST` hands to `streamText`. */
  function Configure(body: ChatBody): (c: AgentConfig)
    ensures c.maxSteps == MaxStepCount
    ensures c.tools == {GenerateSongTool, GiveInfoTool, GenerateQuizTool}
    ensures c.lessonId == body.lessonId && c.messages == body.messages
  {
    AgentConfig(MaxStepCount, {GenerateSongTool, GiveInfoTool, GenerateQuizTool}, body.lessonId, body.messages)
  }

  /** The client's `mode` field is never read: two bodies that differ only in it configure the same agent. */
  lemma ModeNotRead(a: ChatBody, b: ChatBody)
    requires a.messages == b.messages && a.lessonId == b.lessonId
    ensures Configure(a) == Configure(b)
  {
  }

  /** What a tool executor does: returns a value to the agent, or throws. */
  datatype ToolOutcome<T> = Returned(value: T) | Threw(message: string)

  // ---------------------------------------------------------------- giveInfo

  const LessonIdMissingMessage: string := "Lesson ID is missing."
  const AllObjectivesCompleteMessage: string := "It looks like you've completed all objectives for this lesson. Great job!"
  const NoNotesMessage: string := "I couldn't find any notes for this lesson."

  /** The objects `giveInfo` returns: `{ error }` or `{ info, objective }`. There is no
      `checkpointId` among them. */
  datatype InfoOutput =
    | InfoError(error: string)
    | Info(info: string, objective: Option<string>)

  /** `!lessonId`: absent, null or the empty string. */
  predicate LessonIdAbsent(lessonId: Option<string>) {
    lessonId.None? || lessonId.value == ""
  }

  /** `c` is an open checkpoint of the lesson with the least `order` among the open ones. */
  predicate IsLowestOpen(rows: seq<Checkpoint>, lessonId: string, c: Checkpoint) {
    c in rows && IsOpen(c, lessonId) && forall d :: d in rows && IsOpen(d, lessonId) ==> c.order <= d.order
  }

  /** `findFirst({ where: and(eq(lessonId), eq(complete, false)), orderBy: asc(order) })`.
      Among rows of equal `order` the model takes the first in table order; the query leaves that tie open. */
  function CurrentCheckpoint(rows: seq<Checkpoint>, lessonId: string): (r: Option<Checkpoint>)
    ensures r.Some? ==> IsLowestOpen(rows, lessonId, r.value)
    ensures r.None? <==> !HasOpen(rows, lessonId)
  {
    if rows == [] then None
    else
      var rest := CurrentCheckpoint(rows[1..], lessonId);
      assert forall c :: c in rows && c != rows[0] ==> c in rows[1..];
      if IsOpen(rows[0], lessonId) && (rest.None? || rows[0].order <= rest.value.order) then Some(rows[0])
      else rest
  }

  /** The lesson's notes when the lesson exists and its `source` is neither null nor empty. */
  function NotesOf(lessons: seq<Lesson>, lessonId: string): (r: Option<string>)
    ensures r.Some? ==> r.value != "" && exists l :: l in lessons && l.id == lessonId && l.source == Some(r.value)
  {
    match LessonById(lessons, lessonId)
    case None => None
    case Some(l) => if l.source.Some? && l.source.value != "" then l.source else None
  }

  /** The `giveInfo` executor. `explain(notes, objective)` is the `generateText` call. */
  function GiveInfo(lessonId: Option<string>, lessons: seq<Lesson>, rows: seq<Checkpoint>,
                    explain: (string, string) -> ToolOutcome<string>): (r: ToolOutcome<InfoOutput>)
    ensures r == Returned(InfoError(LessonIdMissingMessage)) <==> LessonIdAbsent(lessonId)
    ensures r.Returned? && r.value.Info? && r.value.objective.None? <==>
      !LessonIdAbsent(lessonId) && !HasOpen(rows, lessonId.value)
    ensures r.Returned? && r.value.Info? && r.value.objective.None? ==> r.value.info == AllObjectivesCompleteMessage
    ensures r.Returned? && r.value.Info? && r.value.objective.Some? ==>
      exists c :: IsLowestOpen(rows, lessonId.value, c) && c.objective == r.value.objective.value
    ensures r.Returned? && r.value.Info? && r.value.objective.Some? && NotesOf(lessons, lessonId.value).None? ==>
      r.value.info == NoNotesMessage
    ensures r.Threw? ==> NotesOf(lessons, lessonId.value).Some? && HasOpen(rows, lessonId.value)
  {
    if LessonIdAbsent(lessonId) then Returned(InfoError(LessonIdMissingMessage))
    else
      var lid := lessonId.value;
      match CurrentCheckpoint(rows, lid)
      case None => Returned(Info(AllObjectivesCompleteMessage, None))
      case Some(c) =>
        match NotesOf(lessons, lid)
        case None => Returned(Info(NoNotesMessage, Some(c.objective)))
        case Some(notes) =>
          match explain(notes, c.objective)
          case Threw(m) => Threw(m)
          case Returned(info) => Returned(Info(info, Some(c.objective)))
  }

  /** With notes and an open checkpoint, the info is the explanation of the lowest open
      objective from exactly those notes. */
  lemma GiveInfoExplainsCurrentObjective(lessonId: string, lessons: seq<Lesson>, rows: seq<Checkpoint>,
                                         explain: (string, string) -> ToolOutcome<string>)
    requires lessonId != "" && NotesOf(lessons, lessonId).Some?
    requires CurrentCheckpoint(rows, lessonId).Some?
    ensures var c := CurrentCheckpoint(rows, lessonId).value;
      var e := explain(NotesOf(lessons, lessonId).value, c.objective);
      GiveInfo(Some(lessonId), lessons, rows, explain) ==
        if e.Returned? then Returned(Info(e.value, Some(c.objective))) else Threw(e.message)
  {
  }

  /** A missing lesson id is answered before any table is queried or the model is called. */
  lemma MissingLessonIdQueriesNothing(lessonId: Option<string>, lessons1: seq<Lesson>, rows1: seq<Checkpoint>,
                                      lessons2: seq<Lesson>, rows2: seq<Checkpoint>,
                                      explain1: (string, string) -> ToolOutcome<string>,
                                      explain2: (string, string) -> ToolOutcome<string>)
    requires LessonIdAbsent(lessonId)
    ensures GiveInfo(lessonId, lessons1, rows1, explain1) == GiveInfo(lessonId, lessons2, rows2, explain2)
  {
  }

  /** When the lesson has no open checkpoint the lessons table is not read and the model is not called. */
  lemma CompletedLessonReadsNoNotes(lessonId: string, lessons1: seq<Lesson>, lessons2: seq<Lesson>,
                                    rows: seq<Checkpoint>,
                                    explain1: (string, string) -> ToolOutcome<string>,
                                    explain2: (string, string) -> ToolOutcome<string>)
    requires lessonId != "" && !HasOpen(rows, lessonId)
    ensures GiveInfo(Some(lessonId), lessons1, rows, explain1) == GiveInfo(Some(lessonId), lessons2, rows, explain2)
  {
  }

  // ------------------------------------------------------------ generateSong

  datatype ClipStatus = Queued | Streaming | Complete

  datatype Clip = Clip(id: string, status: ClipStatus, audioUrl: Option<string>, imageUrl: Option<string>)

  datatype SongRequest = SongRequest(prompt: string, tags: Option<string>, makeInstrumental: bool)

  /** The song service's answer to a generation request. */
  datatype GenerationResponse = GenerationResponse(success: bool, clips: Option<seq<Clip>>, error: Option<string>)

  const GenerationFailedMessage: string := "Failed to start generation"

  /** The guard `!success || !clips`: an absent clip list fails it, an empty array does not. */
  predicate GenerationStarted(g: GenerationResponse) {
    g.success && g.clips.Some?
  }

  /** `new Error(error || "Failed to start generation")`. */
  function GenerationError(g: GenerationResponse): (m: string)
    ensures m != ""
    ensures g.error.Some? && g.error.value != "" ==> m == g.error.value
  {
    if g.error.Some? && g.error.value != "" then g.error.value else GenerationFailedMessage
  }

  function ClipIds(clips: seq<Clip>): (ids: seq<string>)
    ensures |ids| == |clips|
    ensures forall i :: 0 <= i < |clips| ==> ids[i] == clips[i].id
  {
    if clips == [] then [] else [clips[0].id] + ClipIds(clips[1..])
  }

  /** The `generateSong` executor: `generate` is `SunoService.generateSong` and `poll` is
      `SunoService.pollForStatus`. The result is the executor's `{ clips }`. */
  function GenerateSong(prompt: string, tags: Option<string>,
                        generate: SongRequest -> GenerationResponse,
                        poll: (seq<string>, ClipStatus) -> ToolOutcome<seq<Clip>>): (r: ToolOutcome<seq<Clip>>)
    ensures var g := generate(SongRequest(prompt, tags, false));
      && (!GenerationStarted(g) ==> r == Threw(GenerationError(g)))
      && (GenerationStarted(g) ==> r == poll(ClipIds(g.clips.value), Streaming))
  {
    var g := generate(SongRequest(prompt, tags, false));
    if !GenerationStarted(g) then Threw(GenerationError(g))
    else poll(ClipIds(g.clips.value), Streaming)
  }

  /** A failed start is reported without polling: the poller is irrelevant to the outcome. */
  lemma FailedStartDoesNotPoll(prompt: string, tags: Option<string>, generate: SongRequest -> GenerationResponse,
                               poll1: (seq<string>, ClipStatus) -> ToolOutcome<seq<Clip>>,
                               poll2: (seq<string>, ClipStatus) -> ToolOutcome<seq<Clip>>)
    requires !GenerationStarted(generate(SongRequest(prompt, tags, false)))
    ensures GenerateSong(prompt, tags, generate, poll1) == GenerateSong(prompt, tags, generate, poll2)
    ensures GenerateSong(prompt, tags, generate, poll1).Threw?
  {
  }

  /** An empty clip list from a successful start is not caught by the guard: it is polled. */
  lemma EmptyClipListIsPolled(prompt: string, tags: Option<string>,
                              poll: (seq<string>, ClipStatus) -> ToolOutcome<seq<Clip>>)
    ensures GenerateSong(prompt, tags, _ => GenerationResponse(true, Some([]), None), poll) == poll([], Streaming)
  {
  }

  // ------------------------------------------------------------ generateQuiz

  /** The object `generateObject` produces for a quiz. */
  datatype QuizObject = QuizObject(question: string, options: seq<string>, answer: string)

  /** The quiz schema: `options: z.array(z.string()).length(4)`. Nothing relates `answer` to `options`. */
  predicate QuizSchemaAccepts(q: QuizObject) {
    |q.options| == 4
  }

  const QuizSchemaFailureMessage: string := "No object generated: response did not match schema."

  /** The `generateQuiz` executor. `candidate(objective, context)` is the object the model
      produced, or the provider's failure; `generateObject` throws when the
      object does not match the schema. */
  function GenerateQuiz(objective: string, context: string,
                        candidate: (string, string) -> ToolOutcome<QuizObject>): (r: ToolOutcome<QuizObject>)
    ensures r.Returned? ==> |r.value.options| == 4
    ensures r.Returned? <==> candidate(objective, context).Returned? && QuizSchemaAccepts(candidate(objective, context).value)
    ensures r.Returned? ==> r == candidate(objective, context)
  {
    match candidate(objective, context)
    case Threw(m) => Threw(m)
    case Returned(q) => if QuizSchemaAccepts(q) then Returned(q) else Threw(QuizSchemaFailureMessage)
  }

  /** "The answer is one of the options" is asked of the model in the prompt only: a quiz whose
      answer is none of its four options is returned as it is. */
  lemma AnswerMembershipNotChecked()
    ensures var r := GenerateQuiz("o", "c", (_, _) => Returned(QuizObject("q", ["a", "b", "c", "d"], "e")));
      r.Returned? && r.value.answer !in r.value.options
  {
  }
}
