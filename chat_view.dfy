/** The chat page component: method resolution, the per-part rendering decisions, the quiz
    wrapper's one-way `completed` flag and the send/stop input. */
module ChatView {
  import opened Js
  import opened Schema

  // ------------------------------------------------------------ loading text

  const GiveInfoLoading: string := "Getting information..."
  const GenerateQuizLoading: string := "Generating a quiz..."
  const FreeResponseLoading: string := "Evaluating your response..."
  const DefaultLoading: string := "Thinking..."

  /** `LoadingComponent`'s message. */
  function LoadingMessage(toolName: string): (m: string)
    ensures toolName == "giveInfo" <==> m == GiveInfoLoading
    ensures toolName == "generateQuiz" <==> m == GenerateQuizLoading
    ensures toolName == "freeResponse" <==> m == FreeResponseLoading
    ensures m == DefaultLoading <==> toolName !in {"giveInfo", "generateQuiz", "freeResponse"}
  {
    if toolName == "giveInfo" then GiveInfoLoading
    else if toolName == "generateQuiz" then GenerateQuizLoading
    else if toolName == "freeResponse" then FreeResponseLoading
    else DefaultLoading
  }

  // ------------------------------------------------------------ study method

  /** `(lessonData.mode ?? searchParams.get('method') ?? '').toLowerCase()`. `??` only skips
      null, so an empty URL parameter is kept as it is. */
  function ResolveMethod(lessonMode: Option<LessonMode>, urlMethod: Option<string>): (m: string)
    ensures HasNoUpper(m)
    ensures lessonMode.Some? ==> m == ModeName(lessonMode.value)
    ensures lessonMode.None? && urlMethod.Some? ==> m == ToLower(urlMethod.value)
    ensures lessonMode.None? && urlMethod.None? ==> m == ""
  {
    var chosen := if lessonMode.Some? then ModeName(lessonMode.value) else if urlMethod.Some? then urlMethod.value else "";
    LowerCaseResult(chosen);
    if lessonMode.Some? then LowerOfLowerCase(chosen); ToLower(chosen)
    else ToLower(chosen)
  }

  datatype Intro = MnemonicIntro | FeynmanIntro | ActiveRecallIntro | RehearsalIntro

  predicate ShowsActiveRecall(studyMethod: string) {
    studyMethod == "flashcard" || studyMethod == "recall" || studyMethod == "3"
  }

  /** The introduction panels shown before the first message; each is its own condition. */
  function IntroPanels(studyMethod: string): (r: set<Intro>)
    ensures |r| <= 1
    ensures MnemonicIntro in r <==> studyMethod == "song"
    ensures FeynmanIntro in r <==> studyMethod == "teach"
    ensures ActiveRecallIntro in r <==> ShowsActiveRecall(studyMethod)
    ensures RehearsalIntro in r <==> studyMethod == "rehearse"
  {
    assert "song" != "teach" && "song" != "rehearse" && "teach" != "rehearse";
    assert ShowsActiveRecall(studyMethod) ==>
      studyMethod != "song" && studyMethod != "teach" && studyMethod != "rehearse";
    (if studyMethod == "song" then {MnemonicIntro} else {})
      + (if studyMethod == "teach" then {FeynmanIntro} else {})
      + (if ShowsActiveRecall(studyMethod) then {ActiveRecallIntro} else {})
      + (if studyMethod == "rehearse" then {RehearsalIntro} else {})
  }

  function IntroFor(m: LessonMode): Intro {
    match m
    case Song => MnemonicIntro
    case Teach => FeynmanIntro
    case Flashcard => ActiveRecallIntro
    case Rehearse => RehearsalIntro
  }

  /** A lesson with a stored mode gets exactly that mode's panel, whatever the URL says. */
  lemma StoredModeSelectsItsPanel(m: LessonMode, urlMethod: Option<string>)
    ensures IntroPanels(ResolveMethod(Some(m), urlMethod)) == {IntroFor(m)}
  {
    var r := IntroPanels(ResolveMethod(Some(m), urlMethod));
    assert IntroFor(m) in r;
  }

  // ------------------------------------------------------------ message parts

  /** A message part as the client holds it; `output` is undefined until the tool has returned. */
  datatype Part = Part(partType: string, text: string, output: Json)

  datatype View =
    | TextView(text: string)
    | SongPending
    | SongView(clips: Json)
    | InfoView(info: Json)
    | LoadingView(message: string)
    | NotesView(notes: Json)
    | QuizView(quiz: Json)
    | FlashcardsError(error: Json)
    | FlashcardsView(cards: seq<Json>)
    | NoFlashcards
    | ComparisonView(shown: Json, isError: bool)
    | RenderThrows
    | NoView

  /** Reading a property of null or undefined throws. */
  predicate Nullish(v: Json) {
    v == JUndefined || v == JNull
  }

  /** `v[0]`: an array's first element, a string's first character, an object's property "0";
      undefined otherwise. */
  function FirstElement(v: Json): Json {
    match v
    case JArr(items) => if items == [] then JUndefined else items[0]
    case JStr(s) => if s == "" then JUndefined else JStr([s[0]])
    case JObj(_) => Prop(v, "0")
    case _ => JUndefined
  }

  /** `SongGeneration`'s render: the cover reads `output.clips[0].image_url`. */
  function SongPartView(output: Json): (v: View)
    ensures v == SongPending <==> !Truthy(output)
    ensures v == RenderThrows <==>
      Truthy(output) && (Nullish(Prop(output, "clips")) || Nullish(FirstElement(Prop(output, "clips"))))
    ensures v.SongView? ==> v.clips == Prop(output, "clips")
    ensures v.SongPending? || v.RenderThrows? || v.SongView?
  {
    if !Truthy(output) then SongPending
    else if Nullish(Prop(output, "clips")) || Nullish(FirstElement(Prop(output, "clips"))) then RenderThrows
    else SongView(Prop(output, "clips"))
  }

  predicate HasNullishElement(items: seq<Json>) {
    exists i :: 0 <= i < |items| && Nullish(items[i])
  }

  /** The `tool-generateFlashcards` branch. It reads `output.error` without a check, calls
      `cards?.map`, which only an array or a nullish value survives, and reads `card.question` of
      every element. An empty array maps to an empty, truthy list. */
  function FlashcardsPartView(output: Json): (v: View)
    ensures Nullish(output) ==> v == RenderThrows
    ensures v.FlashcardsError? <==> !Nullish(output) && Truthy(Prop(output, "error"))
    ensures v.FlashcardsError? ==> v.error == Prop(output, "error")
    ensures v == NoFlashcards <==> !Nullish(output) && !Truthy(Prop(output, "error")) && Nullish(Prop(output, "cards"))
    ensures v.FlashcardsView? <==>
      !Nullish(output) && !Truthy(Prop(output, "error")) &&
      Prop(output, "cards").JArr? && !HasNullishElement(Prop(output, "cards").items)
    ensures v.FlashcardsView? ==> Prop(output, "cards") == JArr(v.cards)
    ensures v.RenderThrows? || v.FlashcardsError? || v.NoFlashcards? || v.FlashcardsView?
  {
    if Nullish(output) then RenderThrows
    else if Truthy(Prop(output, "error")) then FlashcardsError(Prop(output, "error"))
    else
      match Prop(output, "cards")
      case JUndefined => NoFlashcards
      case JNull => NoFlashcards
      case JArr(items) => if HasNullishElement(items) then RenderThrows else FlashcardsView(items)
      case _ => RenderThrows
  }

  const NoFeedbackMessage: string := "No feedback available"

  /** `result.feedback || result.error || 'No feedback available'`. */
  function ComparisonPartView(output: Json): (v: View)
    ensures v == RenderThrows <==> Nullish(output)
    ensures v.ComparisonView? ==> Truthy(v.shown) && (v.isError <==> Truthy(Prop(output, "error")))
    ensures v.ComparisonView? && Truthy(Prop(output, "feedback")) ==> v.shown == Prop(output, "feedback")
    ensures v.ComparisonView? && !Truthy(Prop(output, "feedback")) ==>
      v.shown == if Truthy(Prop(output, "error")) then Prop(output, "error") else JStr(NoFeedbackMessage)
  {
    if Nullish(output) then RenderThrows
    else
      var feedback := Prop(output, "feedback");
      var error := Prop(output, "error");
      ComparisonView(
        if Truthy(feedback) then feedback else if Truthy(error) then error else JStr(NoFeedbackMessage),
        Truthy(error))
  }

  /** The `message.parts.map` body. */
  function PartView(p: Part): (v: View)
    ensures p.partType == "tool-giveInfo" ==>
      v == if Truthy(Prop(p.output, "info")) then InfoView(Prop(p.output, "info")) else LoadingView(GiveInfoLoading)
    ensures v.NotesView? <==> p.partType == "tool-getNotes" && Truthy(Prop(p.output, "notes"))
    ensures v.QuizView? <==> p.partType == "tool-generateQuiz" && Truthy(Prop(p.output, "question"))
    ensures v.NotesView? ==> v.notes == Prop(p.output, "notes")
    ensures v.QuizView? ==> v.quiz == p.output
    ensures p.partType == "text" ==> v == TextView(p.text)
    ensures p.partType == "tool-generateSong" ==> v == SongPartView(p.output)
    ensures p.partType == "tool-generateFlashcards" ==> v == FlashcardsPartView(p.output)
    ensures p.partType == "tool-compareRehearsal" ==> v == ComparisonPartView(p.output)
    ensures (p.partType == "tool-getNotes" || p.partType == "tool-generateQuiz") && !v.NotesView? && !v.QuizView? ==>
      v == NoView
    ensures p.partType !in KnownPartTypes ==> v == NoView
    ensures v == RenderThrows ==> p.partType in {"tool-generateSong", "tool-generateFlashcards", "tool-compareRehearsal"}
  {
    if p.partType == "text" then TextView(p.text)
    else if p.partType == "tool-generateSong" then SongPartView(p.output)
    else if p.partType == "tool-giveInfo" then
      (if Truthy(p.output) && Truthy(Prop(p.output, "info")) then InfoView(Prop(p.output, "info"))
       else LoadingView(LoadingMessage("giveInfo")))
    else if p.partType == "tool-getNotes" && Truthy(p.output) && Truthy(Prop(p.output, "notes")) then
      NotesView(Prop(p.output, "notes"))
    else if p.partType == "tool-generateQuiz" && Truthy(p.output) && Truthy(Prop(p.output, "question")) then
      QuizView(p.output)
    else if p.partType == "tool-generateFlashcards" then FlashcardsPartView(p.output)
    else if p.partType == "tool-compareRehearsal" then ComparisonPartView(p.output)
    else NoView
  }

  const KnownPartTypes: set<string> := {"text", "tool-generateSong", "tool-giveInfo", "tool-getNotes",
                                        "tool-generateQuiz", "tool-generateFlashcards", "tool-compareRehearsal"}

  datatype ChatStatus = Submitted | Streaming | Ready | Errored

  predicate IsBusy(status: ChatStatus) {
    status == Submitted || status == Streaming
  }

  datatype MessageRender = RenderedParts(views: seq<View>) | BusyIndicator | RenderedNothing

  /** One message: its parts, or while the response is pending a bouncing-dots placeholder. */
  function MessageView(parts: seq<Part>, status: ChatStatus): (r: MessageRender)
    ensures r.RenderedParts? <==> parts != []
    ensures r.RenderedParts? ==> |r.views| == |parts| && forall i :: 0 <= i < |parts| ==> r.views[i] == PartView(parts[i])
    ensures r == BusyIndicator <==> parts == [] && IsBusy(status)
  {
    if parts != [] then RenderedParts(seq(|parts|, i requires 0 <= i < |parts| => PartView(parts[i])))
    else if IsBusy(status) then BusyIndicator
    else RenderedNothing
  }

  // ------------------------------------------------------------ quiz wrapper

  const NextObjectivePrompt: string := "Great, what is the next objective?"
  const RetryPrompt: string := "I would like to try another question for the last objective."

  /** The quiz props `QuizDisplay` spreads from a quiz output: its `checkpointId` if it has one. */
  function QuizCheckpointId(output: Json): (r: Option<string>)
    ensures r.Some? <==> Prop(output, "checkpointId").JStr?
  {
    match Prop(output, "checkpointId")
    case JStr(s) => Some(s)
    case _ => None
  }

  class QuizDisplay {
    var completed: bool

    constructor ()
      ensures !completed
    {
      completed := false;
    }

    /** `if (completed) return null`. */
    predicate Renders()
      reads this
    {
      !completed
    }

    /** The wrapped `onComplete`: hide the quiz, then ask for the next objective. */
    method OnComplete() returns (sent: string)
      modifies this
      ensures completed && !Renders()
      ensures sent == NextObjectivePrompt
    {
      completed := true;
      sent := NextObjectivePrompt;
    }

    /** The wrapped `onRetry`: hide the quiz, then ask for another question. */
    method OnRetry() returns (sent: string)
      modifies this
      ensures completed && !Renders()
      ensures sent == RetryPrompt
    {
      completed := true;
      sent := RetryPrompt;
    }
  }

  // ------------------------------------------------------------ input

  datatype ButtonAction = StopStream | SendText(text: string)

  /** What the send/stop button does when clicked. */
  function ButtonActionFor(status: ChatStatus, input: string): (a: ButtonAction)
    ensures a == StopStream <==> IsBusy(status)
    ensures a.SendText? ==> a.text == input
  {
    if IsBusy(status) then StopStream else SendText(input)
  }

  /** `disabled={input.length === 0}`. */
  predicate ButtonDisabled(input: string) {
    |input| == 0
  }

  class ChatInput {
    var input: string

    constructor ()
      ensures input == ""
    {
      input := "";
    }

    method Change(value: string)
      modifies this
      ensures input == value
    {
      input := value;
    }

    /** `onKeyDown`: Enter sends the input, even an empty one and even while a response streams. */
    method KeyDown(key: string) returns (sent: Option<string>)
      modifies this
      ensures key == "Enter" ==> sent == Some(old(input)) && input == ""
      ensures key != "Enter" ==> sent == None && input == old(input)
    {
      if key == "Enter" {
        sent := Some(input);
        input := "";
      } else {
        sent := None;
      }
    }

    /** The button's `onClick`; a disabled button receives no clicks. */
    method Click(status: ChatStatus) returns (action: ButtonAction)
      requires !ButtonDisabled(input)
      modifies this
      ensures action == ButtonActionFor(status, old(input))
      ensures input == if IsBusy(status) then old(input) else ""
    {
      action := ButtonActionFor(status, input);
      if !IsBusy(status) {
        input := "";
      }
    }
  }
}
