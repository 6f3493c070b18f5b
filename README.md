# Studly study assistant: a Dafny model of its core

Studly is a Next.js application that turns a lesson's notes into guided study. A lesson has
an ordered list of learning objectives, stored as *checkpoints*. In the chat, an agent explains the
current (lowest-order, incomplete) objective from the notes. It then asks a four-option
quiz question. A correct answer marks the checkpoint complete, and the chat asks for the next
objective. A flashcard endpoint and its review component cover the "active recall"
method. Uploaded PDFs and images are turned into text by PDF parsing or OCR.

The model covers these parts:

- the two tables and their constraints (module `Schema`);
- the `completeCheckpoint` server action as an in-place update of a `Database` object
  (`CheckpointActions`);
- the ordering-free `getCurrentCheckpoint` fetcher (`Fetchers`). `lib/fetchers.ts` and
  `lib/fetchers/index.tsx` define it identically, and one function models both;
- the chat endpoint's agent configuration and its three tool executors (`ChatRoute`);
- the flashcard endpoint and the request and response schemas (`QuizRoute`, `QuizSchema`);
- the flashcard and multiple-choice components as classes whose methods are the event handlers
  (`FlashcardReview`, `MultipleChoice`);
- the chat page's rendering decisions and input box (`ChatView`);
- the upload handler (`ProcessFile`);
- how one lesson moves from objective to objective (`Progression`), both as written and
  corrected.

JavaScript semantics the code relies on are spelled out in `Js`: truthiness, property access,
`Number()` (decimal, exponent, fraction, `0x`/`0o`/`0b` and `Infinity` strings, one-element
arrays), `String.prototype.trim`'s whitespace set, string length in UTF-16 code units (Dafny's characters are code points, and one above U+FFFF
counts two, as in zod's length checks), ASCII
`toLowerCase`, `??` against `||`. Numbers are exact reals.

Calls into code that is not modelled are parameters of the functions that make them. These are
the language-model calls (`generateText`, `generateObject`), the song service, PDF parsing and OCR,
and the outcome of the database write. A parameter answers `Threw`/`None` where the real call
throws.

The lesson table's `source` and `mode` columns and the checkpoint table's `order` and
`objective` columns are read by the chat endpoint and the pages. `lib/db/schema.ts` does not
declare them. The model adds them to the row types.

Behaviour of the code that the model keeps as it is:

- The chat endpoint offers the same three tools whatever the lesson's mode.
- The chat endpoint's step budget is the constant 2, whatever the mode.
- `giveInfo` does not return the id of the checkpoint it explains (see Findings).
- "The answer is one of the options" is only asked of the model in the prompt. The schema does
  not check it.
- An unparseable body to the flashcard endpoint is answered with 500, not a 4xx status.
- An empty clip array from the song service passes the endpoint's guard.
- The fetcher imposes no order on the checkpoints it may return.

## Model

| member | source | states |
|---|---|---|
| Js.BlankIffAllWhitespace | app/api/quiz/route.ts:16 | `!s.trim()` holds exactly when every character of `s` is ECMAScript whitespace or a line terminator |
| Js.StringToNumber | app/api/quiz/route.ts:20 | `Number()` of a blank string is 0 |
| Js.Number | app/api/quiz/route.ts:20 | `Number()` of a number is that number and of a string its string conversion; `null` gives 0 and booleans 1 or 0; undefined and objects give NaN; an empty array gives 0 and a longer one than a single element NaN; a single element converts as its string form does: a number, string or array as itself, `null` or undefined as 0, a boolean or an object as NaN |
| Js.ExponentLiteral | app/api/quiz/route.ts:20 | digits `m`, `e`, digits `k` convert to m times ten to the k |
| Js.FractionLiteral | app/api/quiz/route.ts:20 | digits, a point and digits convert to their decimal value, the fraction digits shifting it right |
| Js.TrailingZeroFraction | components/quiz/quizGenerator.tsx:83 | a natural written with a point and any number of zeros, `10.0` say, converts to that natural |
| Js.NonDecimalLiteral | app/api/quiz/route.ts:20 | `0x`, `0o` or `0b` followed by digits of that base converts to their value in that base |
| Js.SignedNonDecimalIsNaN | app/api/quiz/route.ts:20 | a sign before a `0x`, `0o` or `0b` literal makes NaN |
| Js.Utf16Length | app/api/quiz/route.ts:8-9 | a string's length in UTF-16 units lies between its character count and twice it, and is 0 only for the empty string |
| Js.NumberOfDecimalString | app/api/quiz/route.ts:20 | `Number()` of the decimal rendering of a natural number gives that number back |
| Js.LowerCaseResult | components/chat/index.tsx:136-138 | `toLowerCase` leaves no upper-case letter and is idempotent |
| Schema.LessonById | app/api/chat/route.ts:82-84 | the lookup by primary key returns a row with that id from the table, and nothing exactly when no such row exists |
| Schema.LessonByIdUnique | lib/db/schema.ts:5-7 | with unique lesson ids, looking a lesson up by its own id finds that very row |
| Schema.InsertLesson | lib/db/schema.ts:4-9 | an insert fails exactly on a duplicate key or an embedding that is not 1536 wide; otherwise it appends the row and keeps the constraints |
| Schema.InsertCheckpoint | lib/db/schema.ts:11-19 | an insert fails exactly on a duplicate key or a dangling `lesson_id`; otherwise it appends one row with `complete` false and keeps every constraint |
| Schema.CheckpointsOf | lib/db/schema.ts:21-23 | a lesson's checkpoints are exactly the rows whose `lessonId` is that lesson's id |
| Schema.CheckpointHasExactlyOneLesson | lib/db/schema.ts:25-30 | in a well-formed database each checkpoint relates to exactly one lesson and belongs to that lesson's checkpoints only |
| Schema.Database.constructor | lib/db/schema.ts:4-19 | the live tables start out satisfying the primary-key, foreign-key and vector-width constraints |
| CheckpointActions.MarkComplete | lib/actions/checkpoints.ts:13-16 | the UPDATE keeps every row and column except `complete`, which becomes true exactly on the rows whose id matches |
| CheckpointActions.MarkCompleteIdempotent | lib/actions/checkpoints.ts:13-16 | completing a checkpoint twice leaves the table as completing it once |
| CheckpointActions.MarkCompleteUnmatched | lib/actions/checkpoints.ts:13-16 | an id that matches no row leaves the table unchanged |
| CheckpointActions.MarkCompleteWellFormed | lib/actions/checkpoints.ts:13-16 | the update preserves every table constraint |
| CheckpointActions.Completion | lib/actions/checkpoints.ts:8-24 | success exactly for a defined id whose update commits and whose revalidation returns, otherwise the failure message; the table is unchanged for an undefined id or a throwing update, and otherwise the id's rows are marked |
| CheckpointActions.UndefinedIdFails | lib/actions/checkpoints.ts:12-22 | an undefined id, refused by the driver inside the `try`, answers failure and changes no row |
| CheckpointActions.CompleteCheckpoint | lib/actions/checkpoints.ts:8-24 | the answer and the new table are the action's completion for that id and outcome, and the constraints are kept |
| CheckpointActions.CompleteTwice | lib/actions/checkpoints.ts:8-24 | two committed calls both succeed and leave the table as one call does |
| Fetchers.GetCurrentCheckpoint | lib/fetchers/index.tsx:5-10 | the result is an incomplete checkpoint of the lesson, and there is none exactly when the lesson has no incomplete checkpoint |
| Fetchers.AnyOpenCheckpointMayBeReturned | lib/fetchers/index.tsx:6-8 | without `orderBy`, every incomplete checkpoint is the answer under some scan order of the same rows |
| Fetchers.FetcherDiffersFromChatPick | lib/fetchers.ts:6-8 | the fetcher's answer can differ from the chat endpoint's lowest-order checkpoint |
| ChatRoute.Configure | app/api/chat/route.ts:20-31 | the agent always gets a step budget of 2 and the same three tools, whatever the body's mode |
| ChatRoute.ModeNotRead | app/api/chat/route.ts:21-22 | two bodies that differ only in `mode` configure the same agent |
| ChatRoute.CurrentCheckpoint | app/api/chat/route.ts:65-71 | the result is an incomplete checkpoint of the lesson with the least `order`, and there is none exactly when no checkpoint is open |
| ChatRoute.NotesOf | app/api/chat/route.ts:82-91 | notes are found only as the non-empty `source` of the lesson with that id |
| ChatRoute.GiveInfo | app/api/chat/route.ts:56-101 | the error result exactly when the lesson id is falsy; "all complete" with a null objective exactly when no checkpoint is open; otherwise the objective of a lowest-order open checkpoint, with the no-notes text when the notes are missing; a throw only from the explanation call |
| ChatRoute.GiveInfoExplainsCurrentObjective | app/api/chat/route.ts:93-100 | with notes and an open checkpoint, the info is the explanation of the current objective from those notes |
| ChatRoute.MissingLessonIdQueriesNothing | app/api/chat/route.ts:61-63 | a falsy lesson id is answered independently of both tables and of the model |
| ChatRoute.CompletedLessonReadsNoNotes | app/api/chat/route.ts:73-78 | with no open checkpoint the answer does not depend on the lessons table or the model |
| ChatRoute.GenerationError | app/api/chat/route.ts:46 | the thrown message is the service's non-empty error, or the default text |
| ChatRoute.ClipIds | app/api/chat/route.ts:48 | the ids sent for polling are the clips' ids, one per clip and in order |
| ChatRoute.GenerateSong | app/api/chat/route.ts:38-54 | a failed start throws the service's error; a started generation returns what polling the clip ids for "streaming" returns |
| ChatRoute.FailedStartDoesNotPoll | app/api/chat/route.ts:45-47 | after a failed start the poller is never consulted and the outcome is a throw |
| ChatRoute.EmptyClipListIsPolled | app/api/chat/route.ts:45-50 | a successful start with an empty clip array is polled with no ids |
| ChatRoute.GenerateQuiz | app/api/chat/route.ts:116-127 | a quiz is returned exactly when the model's object has four options, and it is that object unchanged |
| ChatRoute.AnswerMembershipNotChecked | app/api/chat/route.ts:119-124 | a quiz whose answer is none of its options is returned as it is |
| QuizRoute.CardCount | app/api/quiz/route.ts:20 | the count lies in 1..100; NaN and 0 give 12, +Infinity and values above 100 give 100, -Infinity and other values below 1 give 1, and a value in 1..100 is kept, a fraction included |
| QuizRoute.NotesMissingIff | app/api/quiz/route.ts:16-18 | notes are rejected exactly when they are not a string or are whitespace only |
| QuizRoute.CardAcceptedBounds | app/api/quiz/route.ts:7-10 | the card schema counts UTF-16 units: three characters always make an admissible question, two can (two emoji), fewer never |
| QuizRoute.OutputAcceptedWhole | app/api/quiz/route.ts:23-25 | an output the dynamic schema admits has a whole, non-negative count of cards |
| QuizRoute.Post | app/api/quiz/route.ts:12-48 | 400 "Missing notes" exactly for a parsed body other than `null` (an object, a number or a string alike) whose notes are rejected; 200 only with exactly the clamped count of cards, each passing the card schema, as generated, and 200 with exactly those cards whenever the generated deck passes; an unparsed or `null` body and every other case is 500 "Failed to generate cards" |
| QuizRoute.MissingNotesSkipsGeneration | app/api/quiz/route.ts:16-18 | rejected notes are answered without calling the model |
| QuizRoute.InRangeCountKept | app/api/quiz/route.ts:20 | an in-range count, as a number or as its decimal string, reaches the model unchanged |
| QuizRoute.WrittenCountForms | app/api/quiz/route.ts:20 | an in-range count written with trailing fractional zeros, or wrapped in a one-element array as a number or a string, reaches the model as its value |
| QuizRoute.ExponentCountForm | app/api/quiz/route.ts:20 | a count in exponent notation is its value, clamped to at most 100 |
| QuizRoute.FractionalCountFails | app/api/quiz/route.ts:20-25 | a count that is not whole yields a schema no deck meets, so the request is never answered 200 |
| QuizSchema.ParseNumCards | lib/quiz-schema.ts:6 | a number is accepted exactly when it is whole and in 1..100, and is read as itself; only an absent count takes the default 12 |
| QuizSchema.ParseQuizRequest | lib/quiz-schema.ts:4-7 | a request parses exactly when it is an object with a non-empty string `notes` and an admissible count |
| QuizSchema.QuizRequestRoundTrip | lib/quiz-schema.ts:4-7 | every admissible request is parsed back from its JSON form |
| QuizSchema.WhitespaceNotesPassSchemaOnly | lib/quiz-schema.ts:5 | whitespace-only notes pass the schema but are rejected by the endpoint |
| QuizSchema.EndpointCountWithinSchema | lib/quiz-schema.ts:6 | a count the endpoint computes is admitted by the request schema exactly when it is whole, and is then read as the same count |
| QuizSchema.ParseFlashcard | lib/quiz-schema.ts:11-15 | a flashcard parses exactly when `id`, `question` and `answer` are strings, and carries those strings |
| QuizSchema.FlashcardRoundTrip | lib/quiz-schema.ts:11-15 | every flashcard is parsed back from its JSON form |
| QuizSchema.ParseFlashcards | lib/quiz-schema.ts:20 | an array parses exactly when each element parses, element by element |
| QuizSchema.ParseQuizResponse | lib/quiz-schema.ts:19-21 | a response parses exactly when it is an object whose `cards` is an array of at least one element, every element a flashcard; the deck is those flashcards, element by element |
| QuizSchema.QuizResponseRoundTrip | lib/quiz-schema.ts:19-21 | every non-empty deck is parsed back from its response JSON |
| QuizSchema.EndpointOutputFailsResponseSchema | lib/quiz-schema.ts:11-21 | the flashcard endpoint's cards carry no `id`, so its answers never satisfy the response schema |
| FlashcardReview.Graded | components/quiz/quizGenerator.tsx:42-43 | grading adds one to exactly one counter: `correct` when known, `wrong` otherwise |
| FlashcardReview.NextIndex | components/quiz/quizGenerator.tsx:45 | the next index is the following card, stopping at the last, and stays inside a non-empty deck |
| FlashcardReview.PrevIndex | components/quiz/quizGenerator.tsx:54 | the previous index is the preceding card, stopping at 0 |
| FlashcardReview.CardCountInput | components/quiz/quizGenerator.tsx:83 | the field's count lies in 1..100; NaN, 0, -Infinity and values below 1 give 1, +Infinity and values above 100 give 100, a value in 1..100 is kept |
| FlashcardReview.CardCountInputOfDisplayed | components/quiz/quizGenerator.tsx:82-83 | typing the displayed value of an in-range count, or that value followed by a point and zeros, keeps that count |
| FlashcardReview.KeyActionFor | components/quiz/quizGenerator.tsx:50-57 | no key acts while there are no cards; with cards, space flips, ArrowRight moves on, ArrowLeft moves back, y/Y and n/N grade, each exactly for those keys, and every other key does nothing |
| FlashcardReview.LowerIsLetter | components/quiz/quizGenerator.tsx:55-56 | a key lower-cases to a letter exactly when it is that letter in either case |
| FlashcardReview.QuizGenerator.GenerateDisabled | components/quiz/quizGenerator.tsx:86 | the Generate button is disabled exactly while loading or while the notes are whitespace only |
| FlashcardReview.QuizGenerator.constructor | components/quiz/quizGenerator.tsx:10-17 | empty notes, 12 cards requested, no cards, first index, unflipped, idle, zero stats |
| FlashcardReview.QuizGenerator.EditNotes | components/quiz/quizGenerator.tsx:72 | the notes become the typed text |
| FlashcardReview.QuizGenerator.EditCardCount | components/quiz/quizGenerator.tsx:83 | the count becomes the clamped field value and stays in 1..100 |
| FlashcardReview.QuizGenerator.BeginGenerate | components/quiz/quizGenerator.tsx:21-31 | loading starts, the review resets, and the body posted is the current notes and count |
| FlashcardReview.QuizGenerator.FinishGenerate | components/quiz/quizGenerator.tsx:32-39 | cards are replaced only by a successful response and loading ends either way |
| FlashcardReview.QuizGenerator.Grade | components/quiz/quizGenerator.tsx:42-46 | stats gain one grade, the card is unflipped and the index advances within the deck |
| FlashcardReview.QuizGenerator.Next | components/quiz/quizGenerator.tsx:122 | the index advances and stays within the deck |
| FlashcardReview.QuizGenerator.Prev | components/quiz/quizGenerator.tsx:121 | the index moves back, never below 0 |
| FlashcardReview.QuizGenerator.Flip | components/quiz/quizGenerator.tsx:123 | the shown face toggles |
| FlashcardReview.QuizGenerator.OnKey | components/quiz/quizGenerator.tsx:49-60 | for each action the whole new state is given: space toggles the face, the arrows set the index to the next or previous one, a grade adds to the stats, unflips and advances, and no action changes nothing; an in-range index stays in range |
| FlashcardReview.QuizGenerator.FlipTwice | components/quiz/quizGenerator.tsx:105 | two flips show the same face again |
| MultipleChoice.ButtonStyleOf | components/quiz/quiz.tsx:39-50 | before answering every option is neutral; afterwards the answer is green and only a wrongly clicked option is red |
| MultipleChoice.AtMostOneRed | components/quiz/quiz.tsx:46-48 | every red option is the clicked option |
| MultipleChoice.Feedback | components/quiz/quiz.tsx:67-76 | feedback appears exactly once answered: "Correct!" for the answer, otherwise the answer is named |
| MultipleChoice.FeedbackCorrectIff | components/quiz/quiz.tsx:69-74 | the feedback is "Correct!" exactly when the selected option is the answer |
| MultipleChoice.ClickEffects | components/quiz/quiz.tsx:29-37 | only a first click on the answer calls out, first `completeCheckpoint` with the props' ids and then `onComplete` |
| MultipleChoice.Quiz.constructor | components/quiz/quiz.tsx:18-27 | a new quiz is unanswered and holds its props |
| MultipleChoice.Quiz.ButtonClass | components/quiz/quiz.tsx:39-50 | an option's button has the neutral class before answering, afterwards the green class exactly for the answer and the red class exactly for a wrongly clicked option |
| MultipleChoice.Quiz.HandleOptionClick | components/quiz/quiz.tsx:29-37 | the first click is recorded and later ones change nothing; the calls made are the click's effects |
| MultipleChoice.TwoClicks | components/quiz/quiz.tsx:30 | a second click keeps the first selection and calls nothing |
| ChatView.LoadingMessage | components/chat/index.tsx:109-117 | each of the three tool names has its own message, and every other name gets "Thinking..." |
| ChatView.ResolveMethod | components/chat/index.tsx:136-138 | the method is lower case; a stored mode wins over the URL parameter, which wins over the empty string |
| ChatView.IntroPanels | components/chat/index.tsx:358-387 | at most one introduction panel shows, each exactly for its method names |
| ChatView.StoredModeSelectsItsPanel | components/chat/index.tsx:136-138 | a lesson with a stored mode shows exactly that mode's panel whatever the URL says |
| ChatView.SongPartView | components/chat/index.tsx:39-52 | the placeholder exactly for a falsy output; a throw exactly for a truthy output without `clips` or without a first clip; otherwise the clips are shown |
| ChatView.FlashcardsPartView | components/chat/index.tsx:297-318 | an absent output throws; a truthy error is shown as it is; an absent card list shows the empty text; the cards are listed exactly when they form an array with no null or undefined element, and every other card value throws |
| ChatView.ComparisonPartView | components/chat/index.tsx:320-330 | an absent output throws; otherwise the feedback if truthy, else the error if truthy, else "No feedback available" is shown, and the error styling follows the error |
| ChatView.PartView | components/chat/index.tsx:189-332 | a text part shows its text; song, flashcard and comparison parts render as their own views; info shows once its text is truthy, otherwise the loading line; notes and quizzes show exactly with truthy content and otherwise render nothing; unknown part types render nothing; only the song, flashcard and comparison branches can throw |
| ChatView.MessageView | components/chat/index.tsx:180-339 | a message with parts renders each part in order; an empty one shows the busy dots exactly while a response is pending |
| ChatView.QuizCheckpointId | components/chat/index.tsx:86-95 | the quiz gets a checkpoint id exactly when the tool output has a string `checkpointId` |
| ChatView.QuizDisplay.constructor | components/chat/index.tsx:87 | a quiz wrapper starts out visible |
| ChatView.QuizDisplay.OnComplete | components/chat/index.tsx:97-100 | completing hides the quiz for good and sends the next-objective request |
| ChatView.QuizDisplay.OnRetry | components/chat/index.tsx:101-104 | retrying hides the quiz for good and sends the retry request |
| ChatView.ButtonActionFor | components/chat/index.tsx:418-424 | the button stops exactly while a response is pending, and otherwise sends the input |
| ChatView.ChatInput.constructor | components/chat/index.tsx:149 | the input starts empty |
| ChatView.ChatInput.Change | components/chat/index.tsx:405-407 | the input becomes the typed value |
| ChatView.ChatInput.KeyDown | components/chat/index.tsx:408-413 | Enter sends the input, empty or not and whatever the status, then clears it; other keys change nothing |
| ChatView.ChatInput.Click | components/chat/index.tsx:417-427 | callable only while the button is enabled, that is with a non-empty input even while a response is pending; it stops a pending response and keeps the input, or sends it and clears it |
| ProcessFile.StripNul | lib/fetchers/process-file.ts:28 | the sanitised text has no NUL, is no longer, and keeps every other character's count |
| ProcessFile.StripNulLength | lib/fetchers/process-file.ts:28 | the text shrinks by exactly its number of NULs |
| ProcessFile.StripNulIdentityIff | lib/fetchers/process-file.ts:28 | sanitising changes nothing exactly when there is no NUL |
| ProcessFile.StripNulIdempotent | lib/fetchers/process-file.ts:28 | sanitising twice is sanitising once |
| ProcessFile.StripNulConcat | lib/fetchers/process-file.ts:28 | sanitising a concatenation sanitises each part |
| ProcessFile.Process | lib/fetchers/process-file.ts:4-35 | "No file provided" exactly for a missing, blank or zero-size entry; "Unsupported file type" exactly for non-PDF, non-image files; a PDF goes to the parser and an image to OCR, a throw becoming "Error processing file"; a non-empty text field also ends in "Error processing file"; extracted text has no NUL |
| ProcessFile.PdfIgnoresOcr | lib/fetchers/process-file.ts:15-22 | for a PDF the OCR engine is never consulted |
| Progression.AfterEffects | components/quiz/quiz.tsx:33-35 | effects that send no defined checkpoint id leave the table unchanged |
| Progression.CorrectClick | components/quiz/quiz.tsx:29-37 | a first correct click leaves the table unchanged when the quiz has no checkpoint id, and otherwise marks that id's rows |
| Progression.AsWrittenCorrectAnswerChangesNothing | components/quiz/quiz.tsx:33-35 | as written the quiz gets no checkpoint id, so `completeCheckpoint` answers failure whatever the database does, a correct answer changes no row, and the next `giveInfo` repeats the old answer |
| Progression.AsWrittenLessonStaysOnFirstObjective | app/api/chat/route.ts:99-100 | a one-objective lesson still has that objective open after a correct answer |
| Progression.GiveInfoTracked | app/api/chat/route.ts:80-100 | the corrected tool returns what `giveInfo` returns plus the id of the lowest-order open checkpoint whose objective it explains |
| Progression.QuizOutputJsonFor | app/api/chat/route.ts:126 | a corrected quiz output hands its checkpoint id to the quiz |
| Progression.OpenCount | app/api/chat/route.ts:65-71 | the count of open checkpoints is 0 exactly when none is open |
| Progression.MarkOneOpen | lib/actions/checkpoints.ts:13-16 | with unique ids, completing an open checkpoint lowers the open count by exactly one |
| Progression.MarkCompleteKeepsIds | lib/actions/checkpoints.ts:13-16 | the update changes no id, so ids stay unique |
| Progression.CorrectClickWithId | components/quiz/quiz.tsx:33-35 | a correct click on a quiz carrying an id is exactly one update of that row |
| Progression.CloseOpen | lib/actions/checkpoints.ts:13-16 | completing an open checkpoint closes it, closes nothing else, and keeps ids unique |
| Progression.CorrectedAnswerAdvances | components/quiz/quiz.tsx:33-35 | corrected, a correct answer closes exactly the objective just explained |
| Progression.CorrectedTurn | components/chat/index.tsx:284-288 | a turn keeps the number of rows and changes nothing once no objective is open |
| Progression.CorrectedTurnIsChain | app/api/chat/route.ts:80-100 | whenever the corrected `giveInfo` explains an objective, the correct click on the quiz carrying its id leaves the table exactly as `CorrectedTurn` does |
| Progression.TurnClosesOne | components/chat/index.tsx:284-288 | corrected, and with the explanation call succeeding, each turn on a lesson with an open objective (explain, quiz, correct answer, next-objective request) closes exactly one objective and keeps ids unique |
| Progression.CorrectedSessionClosesAll | components/chat/index.tsx:284-288 | corrected, and with every explanation call succeeding, as many correct answers (each followed by the next-objective request) as there are open objectives leave no objective open |
| Progression.CorrectedSessionFinishes | app/api/chat/route.ts:73-78 | corrected, and with every explanation call succeeding, as many correct answers as there are open objectives finish the lesson: `giveInfo` then reports every objective complete |

## Left out

- Streaming, message conversion to the model's format, the system prompts, the model name and
  `maxDuration` of the chat endpoint: these concern the language-model service, which is a parameter here.
- Fetchers.GetCurrentCheckpoint: the contract promises only some open checkpoint of the lesson,
  because the query has no `orderBy`; the body takes the first in table order.
- ChatRoute.CurrentCheckpoint: among checkpoints of equal `order` the model takes the first
  in table order; the query leaves that tie to the database.
- ChatRoute.GenerateSong: the song service and its polling are parameters; its HTTP calls,
  timeouts and retries are not part of this model.
- `SongGeneration`'s effect (the `songLoaded` ref, the second poll for the "complete" status and the
  audio URL state) is left out: it is a timed client effect with no result the model could state.
- ChatView.PartView: markdown rendering, CSS classes and message roles are presentation only;
  the `status === 'error'` banner, the scroll effect and the logging are left out for the same reason.
- `Quiz` takes no `onRetry` prop and never calls it, so `QuizDisplay.OnRetry` is modelled but has no caller.
- The chat page passes `notes` to `QuizGenerator`, which takes no props. The notes are ignored.
- app/chat/[slug]/page.tsx renders the chat without `lessonData`. That page is not part of this model.
- FlashcardReview.QuizGenerator.FinishGenerate: the `alert` and its message text are not
  modelled, and neither is the response's HTTP status: a fetch outcome is only success or failure.
  `idx` is not reset when the request settles, so an index moved while it was in flight can lie
  outside the new deck. The card then renders blank.
- The review's progress bar is a floating-point percentage and is left out.
- ProcessFile.Process: PDF parsing and OCR are parameters. The OCR worker is not terminated when
  recognition throws, and that resource leak is not modelled. The form entry's MIME type and
  bytes are what the browser supplied.
- `revalidatePath`'s cache effect is not modelled; only whether it throws.
- Row ids come from `crypto.randomUUID()` and are parameters of the inserts.
- Embeddings are sequences of reals, checked only for their width.
- Progression.AfterEffects: every update that is sent is taken to commit. A failed update
  changes the table less, so the as-written half holds for every outcome.
- Progression.CorrectedSession: every turn is taken to explain an objective, so the lesson must
  have notes and every explanation call must succeed. A turn whose explanation throws ends
  before a quiz is shown and closes nothing; `CorrectedTurnIsChain` ties a turn to the chain
  only when the explanation succeeds.
- ChatRoute.GiveInfo: the two database reads (the open checkpoints and the lesson's notes) are
  taken never to throw; only the explanation call is a parameter that can throw.
- Js.Number: numbers are exact reals. Rounding to double precision, and magnitudes outside
  the double range, are not modelled: `"1e-400"` is 0 in JavaScript and a tiny positive value
  here, so the endpoint's count is 12 there and 1 here. A one-element array holding a number
  converts through `String(n)`, which is taken to give `n` back.
- Js.LowerCaseResult: `toLowerCase` is modelled on the ASCII letters only; JavaScript also maps
  other capitals, such as `É` to `é`.
- ChatView.ResolveMethod: the method is lower-cased in ASCII only, for the same reason, so a
  stored mode with a non-ASCII capital is compared as it is.
- ChatView.PartView: React's refusal of a plain object rendered as a child (an object-valued
  `error` or `question`) is not modelled.

## Findings

| source | as written | input that shows it | evidently intended | confidence | as-written member | corrected member |
|---|---|---|---|---|---|---|
| app/api/chat/route.ts:99-100 | `giveInfo` returns only `info` and `objective`, and `generateQuiz` returns only the quiz. So the quiz receives an undefined `checkpointId` and passes it to `completeCheckpoint`. The postgres.js driver behind `drizzle-orm/postgres-js` refuses an undefined parameter, the `catch` answers failure, and no row changes | lesson `l1` with the single open checkpoint `c1`: after a correct answer `c1` is still open, and the next `giveInfo` explains the same objective again | `giveInfo` returns the id of the checkpoint it explains, and the quiz carries it back, so a correct answer completes that checkpoint and the chat moves on | high (not executed) | Progression.AsWrittenCorrectAnswerChangesNothing | Progression.CorrectedAnswerAdvances |
