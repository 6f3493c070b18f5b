/** The flashcard generator and review component: its state and the handlers that rewrite it. */
module FlashcardReview {
  import opened Js
  import QuizSchema

  type Flashcard = QuizSchema.Flashcard

  datatype Stats = Stats(correct: nat, wrong: nat)

  /** The stats update of `grade(knew)`. */
  function Graded(s: Stats, knew: bool): (t: Stats)
    ensures t.correct + t.wrong == s.correct + s.wrong + 1
    ensures knew <==> t.correct == s.correct + 1
    ensures knew ==> t.wrong == s.wrong
    ensures !knew ==> t.correct == s.correct && t.wrong == s.wrong + 1
  {
    Stats(s.correct + (if knew then 1 else 0), s.wrong + (if knew then 0 else 1))
  }

  /** `Math.min(i + 1, len - 1)`: the Next button, ArrowRight and grading. */
  function NextIndex(i: int, len: int): (j: int)
    ensures len >= 1 && i >= 0 ==> 0 <= j < len
    ensures i + 1 <= len - 1 ==> j == i + 1
    ensures i + 1 > len - 1 ==> j == len - 1
  {
    if i + 1 < len - 1 then i + 1 else len - 1
  }

  /** `Math.max(i - 1, 0)`: the Prev button and ArrowLeft. */
  function PrevIndex(i: int): (j: int)
    ensures j >= 0
    ensures i >= 1 ==> j == i - 1
    ensures i < 1 ==> j == 0
  {
    if i - 1 > 0 then i - 1 else 0
  }

  /** The card-count input: `Math.max(1, Math.min(100, Number(value) || 1))`; NaN and 0 become 1,
      infinities clamp to the bounds, and a fraction is kept. */
  function CardCountInput(value: string): (n: real)
    ensures 1.0 <= n <= 100.0
    ensures StringToNumber(value) == NaN || StringToNumber(value) == Finite(0.0) ==> n == 1.0
    ensures StringToNumber(value) == Infinity(false) ==> n == 100.0
    ensures StringToNumber(value) == Infinity(true) ==> n == 1.0
    ensures StringToNumber(value).Finite? && StringToNumber(value).x < 1.0 ==> n == 1.0
    ensures StringToNumber(value).Finite? && 1.0 <= StringToNumber(value).x <= 100.0 ==> n == StringToNumber(value).x
    ensures StringToNumber(value).Finite? && StringToNumber(value).x > 100.0 ==> n == 100.0
  {
    match StringToNumber(value)
    case NaN => 1.0
    case Infinity(negative) => if negative then 1.0 else 100.0
    case Finite(x) =>
      var requested := if x == 0.0 then 1.0 else x;
      var capped := if requested < 100.0 then requested else 100.0;
      if capped > 1.0 then capped else 1.0
  }

  /** Editing the field with the decimal rendering of an in-range count keeps that count, and so
      does a rendering with trailing fractional zeros such as `10.0`. */
  lemma CardCountInputOfDisplayed(n: nat, zeros: nat)
    requires 1 <= n <= 100
    ensures CardCountInput(DecimalString(n)) == n as real
    ensures CardCountInput(DecimalString(n) + "." + Zeros(zeros)) == n as real
  {
    NumberOfDecimalString(n);
    TrailingZeroFraction(n, zeros);
  }

  datatype KeyAction = NoAction | ToggleFlip | GoNext | GoPrev | GradeKnew | GradeMissed

  /** The keyboard handler: nothing happens while there are no cards; otherwise the space bar
      flips, the arrows move, and `y` or `n` in either case grades. Every other key does nothing. */
  function KeyActionFor(key: string, hasCards: bool): (a: KeyAction)
    ensures !hasCards ==> a == NoAction
    ensures hasCards ==> (a == ToggleFlip <==> key == " ")
    ensures hasCards ==> (a == GoNext <==> key == "ArrowRight")
    ensures hasCards ==> (a == GoPrev <==> key == "ArrowLeft")
    ensures hasCards ==> (a == GradeKnew <==> key == "y" || key == "Y")
    ensures hasCards ==> (a == GradeMissed <==> key == "n" || key == "N")
    ensures a == NoAction <==> !hasCards || key !in {" ", "ArrowRight", "ArrowLeft", "y", "Y", "n", "N"}
  {
    LowerIsLetter(key, 'y');
    LowerIsLetter(key, 'n');
    if !hasCards then NoAction
    else if key == " " then ToggleFlip
    else if key == "ArrowRight" then GoNext
    else if key == "ArrowLeft" then GoPrev
    else if ToLower(key) == "y" then GradeKnew
    else if ToLower(key) == "n" then GradeMissed
    else NoAction
  }

  /** The keys whose lower-case form is one lower-case letter are that letter in either case. */
  lemma LowerIsLetter(key: string, c: char)
    requires 'a' <= c <= 'z'
    ensures ToLower(key) == [c] <==> key == [c] || key == [(c as int - 32) as char]
  {
    if ToLower(key) == [c] {
      assert |key| == 1 && LowerChar(key[0]) == c;
      assert key == [key[0]];
    }
  }

  /** What `fetch('/api/quiz')` came back with: a successful response's cards, or a failure
      (a non-ok status, or a throw while fetching or parsing). */
  datatype FetchResult = Fetched(cards: seq<Flashcard>) | FetchFailed(message: string)

  class QuizGenerator {
    var notes: string
    var numCards: real
    var cards: seq<Flashcard>
    var idx: int
    var flipped: bool
    var loading: bool
    var stats: Stats

    /** The invariant every handler keeps. */
    ghost predicate Valid()
      reads this
    {
      1.0 <= numCards <= 100.0 && idx >= 0
    }

    /** The shown card exists, or there are no cards and `idx` is 0. */
    predicate IndexInRange()
      reads this
    {
      if |cards| == 0 then idx == 0 else 0 <= idx < |cards|
    }

    /** The component takes no props. */
    constructor ()
      ensures Valid() && IndexInRange()
      ensures notes == "" && numCards == 12.0 && cards == [] && idx == 0
      ensures !flipped && !loading && stats == Stats(0, 0)
    {
      notes, numCards, cards, idx := "", 12.0, [], 0;
      flipped, loading, stats := false, false, Stats(0, 0);
    }

    /** The Generate button is disabled while a request is loading or while the notes are
        whitespace only. */
    function GenerateDisabled(): (r: bool)
      reads this
      ensures r <==> loading || AllWhitespace(notes)
    {
      BlankIffAllWhitespace(notes);
      loading || IsBlank(notes)
    }

    method EditNotes(value: string)
      requires Valid()
      modifies this`notes
      ensures Valid() && notes == value
    {
      notes := value;
    }

    method EditCardCount(value: string)
      requires Valid()
      modifies this`numCards
      ensures Valid() && numCards == CardCountInput(value)
    {
      numCards := CardCountInput(value);
    }

    /** The synchronous start of `generate()`: resets the review and returns the request body posted. */
    method BeginGenerate() returns (body: Json)
      requires Valid()
      modifies this`loading, this`flipped, this`idx, this`stats
      ensures Valid() && IndexInRange()
      ensures loading && !flipped && idx == 0 && stats == Stats(0, 0)
      ensures body == JObj(map["notes" := JStr(notes), "numCards" := JNum(numCards)])
    {
      loading, flipped, idx, stats := true, false, 0, Stats(0, 0);
      body := JObj(map["notes" := JStr(notes), "numCards" := JNum(numCards)]);
    }

    /** The end of `generate()` once the fetch settles: cards are replaced only on success, and
      `loading` is cleared either way. `idx` is left as it is, so an index moved while the
      request was in flight can lie outside the new deck. */
    method FinishGenerate(response: FetchResult)
      requires Valid()
      modifies this`cards, this`loading
      ensures Valid() && !loading
      ensures cards == if response.Fetched? then response.cards else old(cards)
      ensures idx == 0 ==> IndexInRange()
    {
      if response.Fetched? {
        cards := response.cards;
      }
      loading := false;
    }

    /** `grade(knew)`; the grading buttons and keys exist only while there are cards. */
    method Grade(knew: bool)
      requires Valid() && |cards| > 0
      modifies this`stats, this`flipped, this`idx
      ensures Valid() && IndexInRange()
      ensures stats == Graded(old(stats), knew) && !flipped && idx == NextIndex(old(idx), |cards|)
    {
      stats := Graded(stats, knew);
      flipped := false;
      idx := NextIndex(idx, |cards|);
    }

    method Next()
      requires Valid() && |cards| > 0
      modifies this`idx
      ensures Valid() && IndexInRange() && idx == NextIndex(old(idx), |cards|)
    {
      idx := NextIndex(idx, |cards|);
    }

    method Prev()
      requires Valid() && |cards| > 0
      modifies this`idx
      ensures Valid() && idx == PrevIndex(old(idx))
      ensures old(IndexInRange()) ==> IndexInRange()
    {
      idx := PrevIndex(idx);
    }

    method Flip()
      requires Valid()
      modifies this`flipped
      ensures Valid() && flipped == !old(flipped)
    {
      flipped := !flipped;
    }

    /** The keydown listener: each action changes its own part of the state and nothing else. */
    method OnKey(key: string)
      requires Valid()
      modifies this`stats, this`flipped, this`idx
      ensures Valid()
      ensures old(IndexInRange()) ==> IndexInRange()
      ensures KeyActionFor(key, |cards| > 0) == NoAction ==>
        stats == old(stats) && flipped == old(flipped) && idx == old(idx)
      ensures KeyActionFor(key, |cards| > 0) == ToggleFlip ==>
        flipped == !old(flipped) && idx == old(idx) && stats == old(stats)
      ensures KeyActionFor(key, |cards| > 0) == GoNext ==>
        idx == NextIndex(old(idx), |cards|) && flipped == old(flipped) && stats == old(stats)
      ensures KeyActionFor(key, |cards| > 0) == GoPrev ==>
        idx == PrevIndex(old(idx)) && flipped == old(flipped) && stats == old(stats)
      ensures KeyActionFor(key, |cards| > 0) == GradeKnew ==>
        stats == Graded(old(stats), true) && !flipped && idx == NextIndex(old(idx), |cards|)
      ensures KeyActionFor(key, |cards| > 0) == GradeMissed ==>
        stats == Graded(old(stats), false) && !flipped && idx == NextIndex(old(idx), |cards|)
    {
      match KeyActionFor(key, |cards| > 0)
      case NoAction =>
      case ToggleFlip => Flip();
      case GoNext => Next();
      case GoPrev => Prev();
      case GradeKnew => Grade(true);
      case GradeMissed => Grade(false);
    }

    /** Flipping twice shows the same face again. */
    method FlipTwice()
      requires Valid()
      modifies this`flipped
      ensures Valid() && flipped == old(flipped)
    {
      Flip();
      Flip();
    }
  }
}
