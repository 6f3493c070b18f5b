/** The flashcard endpoint: validation of `notes`, the clamp on the card count, and the
    exact-length output schema handed to the structured-generation call. */
module QuizRoute {
  import opened Js

  /** One card of the output schema: `question` of length at least 3, `answer` at least 1. */
  datatype Card = Card(question: string, answer: string)

  /** zod's `min` compares `length`, which counts UTF-16 code units. */
  predicate CardAccepted(c: Card) {
    Utf16Length(c.question) >= 3 && Utf16Length(c.answer) >= 1
  }

  /** `z.object({ cards: z.array(Card).length(n) })`: the count `n` need not be a whole number,
      and an array's length only ever equals a whole one. */
  predicate OutputAccepted(cards: seq<Card>, n: real) {
    |cards| as real == n && forall i :: 0 <= i < |cards| ==> CardAccepted(cards[i])
  }

  /** The schema counts UTF-16 units: three characters always make a question long enough, and
      two can when one of them lies outside the Basic Multilingual Plane. */
  lemma CardAcceptedBounds(c: Card)
    ensures |c.question| >= 3 && |c.answer| >= 1 ==> CardAccepted(c)
    ensures CardAccepted(c) ==> |c.question| >= 2 && |c.answer| >= 1
    ensures CardAccepted(Card(['\U{1F600}', '\U{1F600}'], "a"))
  {
    assert Utf16Length(['\U{1F600}', '\U{1F600}']) == 4;
  }

  /** An accepted output has exactly `n` cards, so `n` must be a whole number. */
  lemma OutputAcceptedWhole(cards: seq<Card>, n: real)
    requires OutputAccepted(cards, n)
    ensures n.Floor as real == n && n >= 0.0
    ensures forall i :: 0 <= i < |cards| ==> |cards[i].question| >= 2
  {
    forall i | 0 <= i < |cards| ensures |cards[i].question| >= 2 {
      CardAcceptedBounds(cards[i]);
    }
  }

  const DefaultCardCount: real := 12.0
  const MinCardCount: real := 1.0
  const MaxCardCount: real := 100.0

  /** `Math.max(1, Math.min(100, Number(numCards) || 12))`: NaN and 0 are falsy and take the
      default; infinities clamp to the bounds; a fraction is kept. */
  function CardCount(numCards: Json): (n: real)
    ensures MinCardCount <= n <= MaxCardCount
    ensures Number(numCards) == NaN || Number(numCards) == Finite(0.0) ==> n == DefaultCardCount
    ensures Number(numCards) == Infinity(false) ==> n == MaxCardCount
    ensures Number(numCards) == Infinity(true) ==> n == MinCardCount
    ensures Number(numCards).Finite? && Number(numCards).x != 0.0 && Number(numCards).x < 1.0 ==> n == MinCardCount
    ensures Number(numCards).Finite? && 1.0 <= Number(numCards).x <= 100.0 ==> n == Number(numCards).x
    ensures Number(numCards).Finite? && Number(numCards).x > 100.0 ==> n == MaxCardCount
  {
    match Number(numCards)
    case NaN => DefaultCardCount
    case Infinity(negative) => if negative then MinCardCount else MaxCardCount
    case Finite(x) =>
      if x == 0.0 then DefaultCardCount
      else
        var capped := if x < MaxCardCount then x else MaxCardCount;
        if capped > MinCardCount then capped else MinCardCount
  }

  /** `!notes || typeof notes !== "string" || !notes.trim()`. */
  predicate NotesMissing(notes: Json) {
    !Truthy(notes) || !notes.JStr? || IsBlank(notes.s)
  }

  /** The notes are rejected exactly when they are not a string or consist of whitespace only. */
  lemma NotesMissingIff(notes: Json)
    ensures NotesMissing(notes) <==> !notes.JStr? || AllWhitespace(notes.s)
  {
    if notes.JStr? {
      BlankIffAllWhitespace(notes.s);
    }
  }

  datatype Payload = CardsPayload(cards: seq<Card>) | ErrorPayload(error: string)

  datatype HttpResponse = HttpResponse(status: int, payload: Payload)

  const MissingNotesMessage: string := "Missing notes"
  const GenerationFailedMessage: string := "Failed to generate cards"

  /** `POST /api/quiz`. `body` is what `req.json()` parsed, `None` when parsing threw.
      `generate(n, notes)` is the object `generateObject` produced from the model, `None` when
      the call threw; the endpoint's schema then accepts or rejects it. */
  function Post(body: Option<Json>, generate: (real, string) -> Option<seq<Card>>): (r: HttpResponse)
    ensures r.status == 200 || r.status == 400 || r.status == 500
    ensures r.status == 400 <==> body.Some? && body.value != JNull && NotesMissing(Prop(body.value, "notes"))
    ensures r.status == 400 ==> r.payload == ErrorPayload(MissingNotesMessage)
    ensures r.status == 500 ==> r.payload == ErrorPayload(GenerationFailedMessage)
    ensures r.status == 200 ==> body.Some? && r.payload.CardsPayload?
    ensures r.status == 200 ==> OutputAccepted(r.payload.cards, CardCount(Prop(body.value, "numCards")))
    ensures r.status == 200 ==> !NotesMissing(Prop(body.value, "notes"))
    ensures r.status == 200 ==>
      generate(CardCount(Prop(body.value, "numCards")), Prop(body.value, "notes").s) == Some(r.payload.cards)
    ensures body.None? || body.value == JNull ==> r == HttpResponse(500, ErrorPayload(GenerationFailedMessage))
    ensures body.Some? && body.value != JNull && !NotesMissing(Prop(body.value, "notes")) ==>
      var n := CardCount(Prop(body.value, "numCards"));
      var generated := generate(n, Prop(body.value, "notes").s);
      generated.Some? && OutputAccepted(generated.value, n) ==> r == HttpResponse(200, CardsPayload(generated.value))
  {
    match body
    case None => HttpResponse(500, ErrorPayload(GenerationFailedMessage))
    case Some(b) =>
      // destructuring `null` throws into the catch
      if b == JNull then HttpResponse(500, ErrorPayload(GenerationFailedMessage))
      else
        var notes := Prop(b, "notes");
        if NotesMissing(notes) then HttpResponse(400, ErrorPayload(MissingNotesMessage))
        else
          var n := CardCount(Prop(b, "numCards"));
          match generate(n, notes.s)
          case None => HttpResponse(500, ErrorPayload(GenerationFailedMessage))
          case Some(cards) =>
            if OutputAccepted(cards, n) then HttpResponse(200, CardsPayload(cards))
            else HttpResponse(500, ErrorPayload(GenerationFailedMessage))
  }

  /** Rejected notes are answered without calling the model. */
  lemma MissingNotesSkipsGeneration(body: Json, generate1: (real, string) -> Option<seq<Card>>,
                                    generate2: (real, string) -> Option<seq<Card>>)
    requires body != JNull && NotesMissing(Prop(body, "notes"))
    ensures Post(Some(body), generate1) == Post(Some(body), generate2)
  {
  }

  /** An in-range count, sent as a number or as its decimal string, reaches the model unchanged. */
  lemma InRangeCountKept(k: nat)
    requires 1 <= k <= 100
    ensures CardCount(JNum(k as real)) == k as real
    ensures CardCount(JStr(DecimalString(k))) == k as real
  {
    NumberOfDecimalString(k);
  }

  /** A count written with trailing fractional zeros (`"10.0"`), or wrapped in a one-element
      array (`[5]`, `["7"]`), reaches the model as its value. */
  lemma WrittenCountForms(m: nat, tail: nat)
    requires 1 <= m <= 100
    ensures CardCount(JStr(DecimalString(m) + "." + Zeros(tail))) == m as real
    ensures CardCount(JArr([JNum(m as real)])) == m as real
    ensures CardCount(JArr([JStr(DecimalString(m))])) == m as real
  {
    TrailingZeroFraction(m, tail);
    NumberOfDecimalString(m);
    WholeCount(JStr(DecimalString(m) + "." + Zeros(tail)), m);
    WholeCount(JArr([JNum(m as real)]), m);
    WholeCount(JArr([JStr(DecimalString(m))]), m);
  }

  /** A count in exponent notation (`"1e2"`) is its value, clamped to at most 100. */
  lemma ExponentCountForm(m: nat, k: nat)
    requires m >= 1
    ensures var n := m * Pow10(k);
      CardCount(JStr(DecimalString(m) + "e" + DecimalString(k))) == if n <= 100 then n as real else MaxCardCount
  {
    ExponentLiteral(DecimalString(m), DecimalString(k));
    DecimalStringValue(m);
    DecimalStringValue(k);
    ScaleWhole(m, k);
    WholeCount(JStr(DecimalString(m) + "e" + DecimalString(k)), m * Pow10(k));
  }

  lemma WholeCount(v: Json, n: nat)
    requires n >= 1 && Number(v) == Finite(n as real)
    ensures CardCount(v) == if n <= 100 then n as real else MaxCardCount
  {
  }

  /** A count that is not a whole number, `"10.5"` say, is never met by the generated deck, so the
      request never succeeds. */
  lemma FractionalCountFails(body: Json, generate: (real, string) -> Option<seq<Card>>)
    requires CardCount(Prop(body, "numCards")).Floor as real != CardCount(Prop(body, "numCards"))
    ensures Post(Some(body), generate).status != 200
  {
  }
}
