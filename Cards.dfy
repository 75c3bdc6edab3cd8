/** The records the app and the scripts pass around, as `cards.json` and
    `questions.json` hold them once parsed. */
module Cards {
  import opened Wrappers

  /** A card before metadata is added: what `flashcards.js` displays and what
      `add_metadata.js` reads. A missing `explanation` property is `None`. */
  datatype RawCard = RawCard(cardType: string, q: string, a: string, explanation: Option<string>)

  /** A card with its metadata, as `script.js` and `restructure.js` read it.
      A card whose `tags` is not an array has `tags == None`. */
  datatype Card = Card(
    id: int,
    cardType: string,
    category: string,
    difficulty: string,
    tags: Option<seq<string>>,
    q: string,
    a: string,
    explanation: Option<string>)

  /** A multiple-choice question of the quiz mode. */
  datatype Question = Question(
    vestibular: string,
    year: int,
    difficulty: string,
    text: string,
    options: seq<string>,
    correctAnswer: int,
    explanation: Option<string>)

  /** `card.explanation || ""`. */
  function ExplanationText(c: Card): string {
    c.explanation.GetOr("")
  }

  /** `card.tags || []`. */
  function TagList(c: Card): seq<string> {
    c.tags.GetOr([])
  }

  /** The `category` of every card, in order. */
  function CategoriesOf(cards: seq<Card>): (r: seq<string>)
    ensures |r| == |cards|
  {
    seq(|cards|, i requires 0 <= i < |cards| => cards[i].category)
  }

  /** The `difficulty` of every card, in order. */
  function DifficultiesOf(cards: seq<Card>): (r: seq<string>)
    ensures |r| == |cards|
  {
    seq(|cards|, i requires 0 <= i < |cards| => cards[i].difficulty)
  }

  /** Every tag of every card whose `tags` is an array, card by card and in
      each card's own order; duplicates are kept. */
  function AllTags(cards: seq<Card>): seq<string>
    decreases |cards|
  {
    if cards == [] then [] else AllTags(cards[..|cards| - 1]) + TagList(cards[|cards| - 1])
  }

  /** One more card adds its category, its difficulty and its tags at the
      end of the respective lists. */
  lemma PrefixStep(cards: seq<Card>, i: nat)
    requires i < |cards|
    ensures CategoriesOf(cards[..i + 1]) == CategoriesOf(cards[..i]) + [cards[i].category]
    ensures DifficultiesOf(cards[..i + 1]) == DifficultiesOf(cards[..i]) + [cards[i].difficulty]
    ensures AllTags(cards[..i + 1]) == AllTags(cards[..i]) + TagList(cards[i])
  {
    assert cards[..i + 1][..i] == cards[..i];
  }
}
