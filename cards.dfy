/**
 * Card records, the stored `myCards` value, the sample public cards and the
 * templating that turns a list of cards into the units of a grid.
 */
module Cards {
  import opened Wrappers
  import opened Text

  /**
   * A card record. `id` is the creation time in milliseconds for a card the
   * user made and a small constant for a sample card; sample cards carry no
   * `createdAt`.
   */
  datatype Card = Card(id: int, category: string, question: string, answer: string, createdAt: Option<string>)

  /**
   * What storage key `myCards` holds, as far as the start-up read can tell:
   * nothing; JSON text whose value is falsy (`null`, `false`, `0`, `""`);
   * a JSON array of card records; or text that is not JSON at all.
   */
  datatype StoredCards = Absent | FalsyJson | CardArray(cards: seq<Card>) | Unparseable

  /** `JSON.parse` throws a syntax error on text that is not JSON. */
  datatype LoadError = SyntaxError

  /**
   * `JSON.parse(localStorage.getItem('myCards')) || []`: an absent value
   * parses as `null` and, like any falsy value, is replaced by the empty
   * list; an array is taken as it is; unparseable text is an error, never an
   * empty list.
   */
  function LoadMyCards(stored: StoredCards): (r: Result<seq<Card>, LoadError>)
    ensures r.Failure? <==> stored.Unparseable?
    ensures stored.CardArray? ==> r == Success(stored.cards)
    ensures stored.Absent? || stored.FalsyJson? ==> r == Success([])
  {
    match stored
    case Absent => Success([])
    case FalsyJson => Success([])
    case CardArray(cs) => Success(cs)
    case Unparseable => Failure(SyntaxError)
  }

  /** The record the card form builds from its three fields and the clock. */
  function NewCard(category: string, question: string, answer: string, now: int, isoNow: string): (c: Card)
    ensures c.id == now && c.createdAt == Some(isoNow)
    ensures c.category == category && c.question == question && c.answer == answer
  {
    Card(now, category, question, answer, Some(isoNow))
  }

  /** The five sample cards compiled into the page. */
  const PublicCards: seq<Card> := [
    Card(1, "science", "What is photosynthesis?",
      "The process by which plants use sunlight, water, and carbon dioxide to create oxygen and energy in the form of sugar.", None),
    Card(2, "math", "What is the Pythagorean theorem?",
      "In a right triangle, the square of the hypotenuse equals the sum of squares of the other two sides: a² + b² = c²", None),
    Card(3, "programming", "What is a variable?",
      "A named storage location in memory that holds a value which can be changed during program execution.", None),
    Card(4, "history", "When did World War II end?",
      "World War II ended in 1945, with Germany surrendering in May and Japan in September.", None),
    Card(5, "language", "What is a metaphor?",
      "A figure of speech that describes an object or action in a way that is not literally true but helps explain an idea or make a comparison.", None)
  ]

  /** One face of a rendered card: capitalised category heading, caption, escaped text. */
  datatype Face = Face(heading: string, caption: string, text: string)

  /**
   * One rendered `.flash-card`: its `data-category` and `data-id`, the
   * question face and the answer face (both always present).
   */
  datatype Unit = Unit(category: string, id: int, front: Face, back: Face)

  /** Which grid is rendered; each has its own empty-state placeholder. */
  datatype GridKind = MyGrid | PublicGrid

  /** What a render puts into a grid. */
  datatype View = Placeholder(kind: GridKind) | Units(units: seq<Unit>)

  /** The template applied to one card. */
  function UnitOf(c: Card): (u: Unit)
    ensures u.category == c.category && u.id == c.id
    ensures u.front.caption == "Question" && u.back.caption == "Answer"
    ensures u.front.heading == u.back.heading == CapitalizeFirst(c.category)
    ensures NoMarkup(u.front.text) && UnescapeHtml(u.front.text) == c.question
    ensures NoMarkup(u.back.text) && UnescapeHtml(u.back.text) == c.answer
  {
    EscapeRoundTrip(c.question);
    EscapeRoundTrip(c.answer);
    var heading := CapitalizeFirst(c.category);
    Unit(c.category, c.id, Face(heading, "Question", EscapeHtml(c.question)), Face(heading, "Answer", EscapeHtml(c.answer)))
  }

  /** `cards.map(template)`: one unit per card, in list order. */
  function RenderUnits(cards: seq<Card>): (us: seq<Unit>)
    ensures |us| == |cards|
    ensures forall i :: 0 <= i < |cards| ==> us[i] == UnitOf(cards[i])
  {
    if cards == [] then [] else [UnitOf(cards[0])] + RenderUnits(cards[1..])
  }

  /** The grid's contents: the placeholder for an empty list, else the units. */
  function RenderView(cards: seq<Card>, kind: GridKind): (v: View)
    ensures v.Placeholder? <==> cards == []
    ensures v.Placeholder? ==> v.kind == kind
    ensures v.Units? ==> v.units == RenderUnits(cards)
  {
    if |cards| == 0 then Placeholder(kind) else Units(RenderUnits(cards))
  }

  /** Appending a card to the list appends its unit to the rendering, and nothing else changes. */
  lemma {:induction false} RenderAppend(cards: seq<Card>, c: Card)
    ensures RenderUnits(cards + [c]) == RenderUnits(cards) + [UnitOf(c)]
  {
    if cards != [] {
      assert (cards + [c])[1..] == cards[1..] + [c];
      RenderAppend(cards[1..], c);
    } else {
      assert cards + [c] == [c];
    }
  }

  /** Every rendered question and answer reads back as the card's own text and holds no tag delimiter. */
  lemma RenderedTextIsEscaped(cards: seq<Card>, i: int)
    requires 0 <= i < |cards|
    ensures NoMarkup(RenderUnits(cards)[i].front.text) && NoMarkup(RenderUnits(cards)[i].back.text)
    ensures UnescapeHtml(RenderUnits(cards)[i].front.text) == cards[i].question
    ensures UnescapeHtml(RenderUnits(cards)[i].back.text) == cards[i].answer
  {
  }

  /** The sample cards are numbered 1 to 5, one per category, and carry no creation time. */
  lemma PublicCardsContents()
    ensures |PublicCards| == 5
    ensures forall i :: 0 <= i < |PublicCards| ==> PublicCards[i].id == i + 1 && PublicCards[i].createdAt == None
    ensures [PublicCards[0].category, PublicCards[1].category, PublicCards[2].category, PublicCards[3].category, PublicCards[4].category]
         == ["science", "math", "programming", "history", "language"]
  {
  }

  /** The sample list is never empty, so its placeholder is never shown. */
  lemma PublicGridShowsFiveUnits()
    ensures RenderView(PublicCards, PublicGrid).Units?
    ensures |RenderView(PublicCards, PublicGrid).units| == 5
  {
  }
}
