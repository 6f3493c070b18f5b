/** The single-shot multiple-choice quiz: one click is recorded, the rest are ignored. */
module MultipleChoice {
  import opened Js

  datatype ButtonStyle = Neutral | Green | Red

  const NeutralClass: string := "justify-start text-left h-auto"
  const GreenClass: string := "bg-green-500 hover:bg-green-600 justify-start text-left h-auto"
  const RedClass: string := "bg-red-500 hover:bg-red-600 justify-start text-left h-auto"

  function ClassName(style: ButtonStyle): string {
    match style
    case Neutral => NeutralClass
    case Green => GreenClass
    case Red => RedClass
  }

  /** `getButtonClass(option)`. */
  function ButtonStyleOf(isAnswered: bool, selected: Option<string>, answer: string, option: string): (s: ButtonStyle)
    ensures !isAnswered ==> s == Neutral
    ensures isAnswered ==> (s == Green <==> option == answer)
    ensures s == Red <==> isAnswered && selected == Some(option) && option != answer
  {
    if !isAnswered then Neutral
    else if option == answer then Green
    else if selected == Some(option) then Red
    else Neutral
  }

  /** Across all the options, at most one distinct option text is shown red, and it is the one clicked. */
  lemma AtMostOneRed(isAnswered: bool, selected: Option<string>, answer: string, options: seq<string>, i: nat, j: nat)
    requires i < |options| && j < |options|
    requires ButtonStyleOf(isAnswered, selected, answer, options[i]) == Red
    requires ButtonStyleOf(isAnswered, selected, answer, options[j]) == Red
    ensures options[i] == options[j] && selected == Some(options[i])
  {
  }

  const CorrectFeedback: string := "Correct!"
  const IncorrectPrefix: string := "Incorrect. The correct answer is: "

  /** The feedback line, shown only once answered. */
  function Feedback(isAnswered: bool, selected: Option<string>, answer: string): (r: Option<string>)
    ensures r.Some? <==> isAnswered
    ensures isAnswered && selected == Some(answer) ==> r == Some(CorrectFeedback)
    ensures isAnswered && selected != Some(answer) ==> r == Some(IncorrectPrefix + answer)
  {
    if !isAnswered then None
    else if selected == Some(answer) then Some(CorrectFeedback)
    else Some(IncorrectPrefix + answer)
  }

  /** The feedback says "Correct!" exactly when the selected option is the answer. */
  lemma FeedbackCorrectIff(selected: Option<string>, answer: string)
    ensures Feedback(true, selected, answer) == Some(CorrectFeedback) <==> selected == Some(answer)
  {
    if selected != Some(answer) {
      assert |IncorrectPrefix + answer| > |CorrectFeedback|;
    }
  }

  /** The calls `handleOptionClick` makes outside the component, in order. */
  datatype Effect =
    | CompleteCheckpointCall(checkpointId: Option<string>, lessonId: string)
    | OnCompleteCall

  /** The effects of a click given the state before it: only a first, correct click has any. */
  function ClickEffects(wasAnswered: bool, option: string, answer: string,
                        checkpointId: Option<string>, lessonId: string): (e: seq<Effect>)
    ensures e != [] <==> !wasAnswered && option == answer
    ensures e != [] ==> e == [CompleteCheckpointCall(checkpointId, lessonId), OnCompleteCall]
  {
    if !wasAnswered && option == answer then [CompleteCheckpointCall(checkpointId, lessonId), OnCompleteCall]
    else []
  }

  class Quiz {
    const question: string
    const options: seq<string>
    const answer: string
    /** The prop as it arrives; the chat passes whatever the tool output holds, which may be nothing. */
    const checkpointId: Option<string>
    const lessonId: string
    var selectedOption: Option<string>
    var isAnswered: bool

    ghost predicate Valid()
      reads this
    {
      isAnswered <==> selectedOption.Some?
    }

    constructor (question: string, options: seq<string>, answer: string,
                 checkpointId: Option<string>, lessonId: string)
      ensures Valid() && !isAnswered
      ensures this.question == question && this.options == options && this.answer == answer
      ensures this.checkpointId == checkpointId && this.lessonId == lessonId
    {
      this.question, this.options, this.answer := question, options, answer;
      this.checkpointId, this.lessonId := checkpointId, lessonId;
      selectedOption, isAnswered := None, false;
    }

    /** `handleOptionClick(option)`. `onComplete` follows the awaited `completeCheckpoint`
        whatever the action returned, so its result is not an input here. */
    method HandleOptionClick(option: string) returns (effects: seq<Effect>)
      requires Valid()
      modifies this`selectedOption, this`isAnswered
      ensures Valid() && isAnswered
      ensures old(isAnswered) ==> selectedOption == old(selectedOption)
      ensures !old(isAnswered) ==> selectedOption == Some(option)
      ensures effects == ClickEffects(old(isAnswered), option, answer, checkpointId, lessonId)
    {
      if isAnswered {
        return [];
      }
      selectedOption := Some(option);
      isAnswered := true;
      if option == answer {
        effects := [CompleteCheckpointCall(checkpointId, lessonId), OnCompleteCall];
      } else {
        effects := [];
      }
    }

    /** The `className` an option's button renders with. */
    function ButtonClass(option: string): (c: string)
      reads this
      ensures !isAnswered ==> c == NeutralClass
      ensures isAnswered ==> (c == GreenClass <==> option == answer)
      ensures c == RedClass <==> isAnswered && selectedOption == Some(option) && option != answer
    {
      ClassName(ButtonStyleOf(isAnswered, selectedOption, answer, option))
    }
  }

  /** Two clicks: the second changes nothing and calls nothing, whatever it hits. */
  method TwoClicks(q: Quiz, first: string, second: string) returns (e1: seq<Effect>, e2: seq<Effect>)
    requires q.Valid() && !q.isAnswered
    modifies q
    ensures q.Valid() && q.selectedOption == Some(first)
    ensures e2 == []
    ensures e1 != [] <==> first == q.answer
  {
    e1 := q.HandleOptionClick(first);
    e2 := q.HandleOptionClick(second);
  }
}
