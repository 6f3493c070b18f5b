/** The declarative request, flashcard and response schemas, as parsers from JSON values. */
module QuizSchema {
  import opened Js
  import QuizRoute

  datatype QuizRequest = QuizRequest(notes: string, numCards: int)

  /** `numCards: z.number().int().min(1).max(100).default(12)`: the default applies only to an absent value. */
  function ParseNumCards(v: Json): (r: Option<int>)
    ensures r.Some? ==> 1 <= r.value <= 100
    ensures v == JUndefined ==> r == Some(12)
    ensures v.JNum? ==> (r.Some? <==> v.n.Floor as real == v.n && 1.0 <= v.n <= 100.0)
    ensures r.Some? && v != JUndefined ==> v == JNum(r.value as real)
  {
    match v
    case JUndefined => Some(12)
    case JNum(k) => if k.Floor as real == k && 1.0 <= k <= 100.0 then Some(k.Floor) else None
    case _ => None
  }

  /** `QuizRequestSchema.safeParse(v)`. */
  function ParseQuizRequest(v: Json): (r: Option<QuizRequest>)
    ensures r.Some? ==> v.JObj? && |r.value.notes| >= 1 && 1 <= r.value.numCards <= 100
    ensures r.Some? ==> Prop(v, "notes") == JStr(r.value.notes)
    ensures r.Some? <==> v.JObj? && Prop(v, "notes").JStr? && |Prop(v, "notes").s| >= 1 &&
                         ParseNumCards(Prop(v, "numCards")).Some?
  {
    if !v.JObj? then None
    else
      var notes := Prop(v, "notes");
      var count := ParseNumCards(Prop(v, "numCards"));
      if notes.JStr? && |notes.s| >= 1 && count.Some? then Some(QuizRequest(notes.s, count.value))
      else None
  }

  function QuizRequestJson(q: QuizRequest): Json {
    JObj(map["notes" := JStr(q.notes), "numCards" := JNum(q.numCards as real)])
  }

  /** Every request the schema admits is read back from its own JSON form. */
  lemma QuizRequestRoundTrip(q: QuizRequest)
    requires |q.notes| >= 1 && 1 <= q.numCards <= 100
    ensures ParseQuizRequest(QuizRequestJson(q)) == Some(q)
  {
    assert Prop(QuizRequestJson(q), "notes") == JStr(q.notes);
    assert Prop(QuizRequestJson(q), "numCards") == JNum(q.numCards as real);
  }

  /** The schema's `min(1)` lets whitespace-only notes through, while the endpoint rejects them. */
  lemma WhitespaceNotesPassSchemaOnly()
    ensures ParseQuizRequest(JObj(map["notes" := JStr("   ")])).Some?
    ensures QuizRoute.NotesMissing(JStr("   "))
  {
    var v := JObj(map["notes" := JStr("   ")]);
    assert Prop(v, "notes") == JStr("   ");
    assert Prop(v, "numCards") == JUndefined;
    BlankIffAllWhitespace("   ");
  }

  /** The request schema admits the endpoint's count exactly when it is a whole number, and then
      reads the same count. */
  lemma EndpointCountWithinSchema(numCards: Json)
    ensures var n := QuizRoute.CardCount(numCards);
      ParseNumCards(JNum(n)).Some? <==> n.Floor as real == n
    ensures var n := QuizRoute.CardCount(numCards);
      ParseNumCards(JNum(n)).Some? ==> ParseNumCards(JNum(n)).value as real == n
  {
  }

  datatype Flashcard = Flashcard(id: string, question: string, answer: string)

  /** `FlashcardSchema.safeParse(v)`: an object whose `id`, `question` and `answer` are strings. */
  function ParseFlashcard(v: Json): (r: Option<Flashcard>)
    ensures r.Some? <==> v.JObj? && Prop(v, "id").JStr? && Prop(v, "question").JStr? && Prop(v, "answer").JStr?
    ensures r.Some? ==> Prop(v, "id") == JStr(r.value.id) && Prop(v, "question") == JStr(r.value.question)
                        && Prop(v, "answer") == JStr(r.value.answer)
  {
    var id := Prop(v, "id");
    var question := Prop(v, "question");
    var answer := Prop(v, "answer");
    if v.JObj? && id.JStr? && question.JStr? && answer.JStr? then Some(Flashcard(id.s, question.s, answer.s))
    else None
  }

  function FlashcardJson(c: Flashcard): Json {
    JObj(map["id" := JStr(c.id), "question" := JStr(c.question), "answer" := JStr(c.answer)])
  }

  lemma FlashcardRoundTrip(c: Flashcard)
    ensures ParseFlashcard(FlashcardJson(c)) == Some(c)
  {
    var v := FlashcardJson(c);
    assert Prop(v, "id") == JStr(c.id);
    assert Prop(v, "question") == JStr(c.question);
    assert Prop(v, "answer") == JStr(c.answer);
  }

  /** Parses every element, failing if any element fails. */
  function ParseFlashcards(items: seq<Json>): (r: Option<seq<Flashcard>>)
    ensures r.Some? ==> |r.value| == |items|
    ensures r.Some? ==> forall i :: 0 <= i < |items| ==> ParseFlashcard(items[i]) == Some(r.value[i])
    ensures r.None? ==> exists i :: 0 <= i < |items| && ParseFlashcard(items[i]).None?
  {
    if items == [] then Some([])
    else
      match (ParseFlashcard(items[0]), ParseFlashcards(items[1..]))
      case (Some(c), Some(cs)) => Some([c] + cs)
      case (None, _) => None
      case (_, None) =>
        var i :| 0 <= i < |items[1..]| && ParseFlashcard(items[1..][i]).None?;
        assert items[i + 1] == items[1..][i];
        None
  }

  /** `QuizResponseSchema.safeParse(v)`: an object whose `cards` is an array of at least one
      element, each a flashcard; the deck is those flashcards in order. */
  function ParseQuizResponse(v: Json): (r: Option<seq<Flashcard>>)
    ensures r.Some? <==>
      v.JObj? && Prop(v, "cards").JArr? && |Prop(v, "cards").items| >= 1 &&
      forall i :: 0 <= i < |Prop(v, "cards").items| ==> ParseFlashcard(Prop(v, "cards").items[i]).Some?
    ensures r.Some? ==> |r.value| == |Prop(v, "cards").items|
    ensures r.Some? ==>
      forall i :: 0 <= i < |r.value| ==> ParseFlashcard(Prop(v, "cards").items[i]) == Some(r.value[i])
  {
    var cards := Prop(v, "cards");
    if v.JObj? && cards.JArr? && |cards.items| >= 1 then ParseFlashcards(cards.items) else None
  }

  function QuizResponseJson(cards: seq<Flashcard>): Json {
    JObj(map["cards" := JArr(FlashcardsJson(cards))])
  }

  function FlashcardsJson(cards: seq<Flashcard>): (r: seq<Json>)
    ensures |r| == |cards| && forall i :: 0 <= i < |cards| ==> r[i] == FlashcardJson(cards[i])
  {
    if cards == [] then [] else [FlashcardJson(cards[0])] + FlashcardsJson(cards[1..])
  }

  /** A non-empty deck is read back from its own response JSON. */
  lemma QuizResponseRoundTrip(cards: seq<Flashcard>)
    requires |cards| >= 1
    ensures ParseQuizResponse(QuizResponseJson(cards)) == Some(cards)
  {
    var items := FlashcardsJson(cards);
    assert Prop(QuizResponseJson(cards), "cards") == JArr(items);
    forall i | 0 <= i < |cards| ensures ParseFlashcard(items[i]) == Some(cards[i]) {
      FlashcardRoundTrip(cards[i]);
    }
    var r := ParseFlashcards(items);
    assert r.Some?;
    assert r.value == cards;
    assert ParseQuizResponse(QuizResponseJson(cards)) == r;
  }

  /** The JSON the endpoint answers with: cards carry `question` and `answer` only. */
  function EndpointCardsJson(cards: seq<QuizRoute.Card>): (r: seq<Json>)
    ensures |r| == |cards|
    ensures forall i :: 0 <= i < |cards| ==>
      r[i] == JObj(map["question" := JStr(cards[i].question), "answer" := JStr(cards[i].answer)])
  {
    if cards == [] then [] else
      [JObj(map["question" := JStr(cards[0].question), "answer" := JStr(cards[0].answer)])]
        + EndpointCardsJson(cards[1..])
  }

  /** The endpoint's cards have no `id`, so no answer of the endpoint satisfies the response schema. */
  lemma EndpointOutputFailsResponseSchema(cards: seq<QuizRoute.Card>)
    ensures ParseQuizResponse(JObj(map["cards" := JArr(EndpointCardsJson(cards))])).None?
  {
    var items := EndpointCardsJson(cards);
    var v := JObj(map["cards" := JArr(items)]);
    assert Prop(v, "cards") == JArr(items);
    if |items| >= 1 {
      assert Prop(items[0], "id") == JUndefined;
      assert ParseFlashcard(items[0]).None?;
    }
  }
}
