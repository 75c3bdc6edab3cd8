/** The stand-alone deck page (`flashcards.js`): a list of cards shown one
    at a time, question or answer side first, with an optional shuffle. */
module Deck {
  import opened Wrappers
  import opened Cards
  import Navigation

  /** The text shown for a missing answer. */
  const NoAnswer: string := "Sem resposta"

  /** The text shown on the front for a missing question. */
  const Loading: string := "Carregando..."

  /** The text shown for a card without an explanation. */
  const NoExplanation: string := "Nenhuma explicação disponível para este card."

  /** The single card `loadCards` falls back to when loading fails. */
  const FallbackCard: RawCard := RawCard(
    "exemplo",
    "Erro ao carregar flashcards",
    "Verifique se o arquivo cards.json existe",
    Some("Certifique-se de que o arquivo JSON está na mesma pasta que o HTML."))

  /** `card.a || "Sem resposta"`. */
  function AnswerText(card: RawCard): string {
    if card.a == "" then NoAnswer else card.a
  }

  /** The texts `showCard` writes on the front and on the back. Upright, the
      question (or "Carregando..." when it is empty) is in front and the
      answer (or "Sem resposta") behind; reversed, the answer (or "Sem
      resposta") is in front and the question (or "Sem resposta") behind. */
  function FacesOf(card: RawCard, reverse: bool): (faces: (string, string))
    ensures !reverse ==> faces.0 == (if card.q == "" then Loading else card.q)
    ensures !reverse ==> faces.1 == (if card.a == "" then NoAnswer else card.a)
    ensures reverse ==> faces.0 == (if card.a == "" then NoAnswer else card.a)
    ensures reverse ==> faces.1 == (if card.q == "" then NoAnswer else card.q)
  {
    var front := if reverse then AnswerText(card) else card.q;
    var back := if reverse then card.q else AnswerText(card);
    (if front == "" then Loading else front, if back == "" then NoAnswer else back)
  }

  /** Reversing swaps the two faces exactly when the card has a question;
      a card without one shows "Carregando..." upright but "Sem resposta"
      reversed. */
  lemma ReverseSwapsFaces(card: RawCard)
    ensures FacesOf(card, true) == (FacesOf(card, false).1, FacesOf(card, false).0) <==> card.q != ""
  {
  }

  /** The faces are never blank. */
  lemma FacesNeverBlank(card: RawCard, reverse: bool)
    ensures FacesOf(card, reverse).0 != "" && FacesOf(card, reverse).1 != ""
  {
  }

  /** `updateExplanation`: the card's explanation when it has a non-empty
      one, the placeholder otherwise; the button is shown and enabled on both
      paths. */
  function ExplanationFor(card: RawCard): (text: string)
    ensures text != ""
  {
    if card.explanation.Some? && card.explanation.value != "" then card.explanation.value else NoExplanation
  }

  /** The placeholder appears only for a card whose explanation is missing or
      empty (or is the placeholder itself); any other explanation is shown
      verbatim. */
  lemma ExplanationChoice(card: RawCard)
    ensures ExplanationFor(card) == NoExplanation <==>
      card.explanation.None? || card.explanation.value == "" || card.explanation.value == NoExplanation
    ensures card.explanation.Some? && card.explanation.value != "" ==>
      ExplanationFor(card) == card.explanation.value
  {
  }

  /** What the page shows for the current card: its faces, the progress line
      "Card position de total", and the explanation text. */
  datatype DeckView = DeckView(front: string, back: string, position: nat, total: nat, explanation: string)

  /** The module variables of `flashcards.js`, `cards` as the list it holds. */
  datatype DeckState = DeckState(
    cards: seq<RawCard>,
    current: int,
    reverse: bool,
    flipped: bool,
    explanationVisible: bool,
    view: Option<DeckView>)

  /** `current` is a position of a non-empty deck. */
  predicate Positioned(d: DeckState) {
    0 <= d.current && (|d.cards| > 0 ==> d.current < |d.cards|)
  }

  /** The view of the current card. */
  function ViewOf(d: DeckState): DeckView
    requires 0 <= d.current < |d.cards|
  {
    var card := d.cards[d.current];
    var faces := FacesOf(card, d.reverse);
    DeckView(faces.0, faces.1, d.current + 1, |d.cards|, ExplanationFor(card))
  }

  /** Between handlers: `current` is a position, and what is shown for a
      non-empty deck is the current card in the current orientation. */
  predicate ValidDeck(d: DeckState) {
    Positioned(d) && (d.view.Some? && |d.cards| > 0 ==> d.view.value == ViewOf(d))
  }

  /** `showCard`: nothing for an empty deck; otherwise the current card is
      shown with the front up. */
  function Shown(d: DeckState): (r: DeckState)
    requires Positioned(d)
    ensures ValidDeck(r)
  {
    if |d.cards| == 0 then d else d.(view := Some(ViewOf(d)), flipped := false)
  }

  /** `showCard` changes only the view and the flip, resets the flip, and
      does nothing at all for an empty deck. */
  lemma ShownResetsFlip(d: DeckState)
    requires Positioned(d)
    ensures |d.cards| == 0 ==> Shown(d) == d
    ensures |d.cards| > 0 ==>
      && !Shown(d).flipped
      && Shown(d).view == Some(ViewOf(d))
      && Shown(d).(view := d.view, flipped := d.flipped) == d
  {
  }

  /** `loadCards`: the loaded list, or on failure the single fallback card,
      from the first card. */
  function Loaded(d: DeckState, loaded: Option<seq<RawCard>>): (r: DeckState)
    ensures ValidDeck(r)
  {
    Shown(d.(cards := loaded.GetOr([FallbackCard]), current := 0))
  }

  /** A failed load leaves exactly the fallback card, shown with its
      explanation, at position 1 of 1. */
  lemma LoadFailureFallsBack(d: DeckState)
    ensures Loaded(d, None).cards == [FallbackCard]
    ensures Loaded(d, None).current == 0
    ensures Loaded(d, None).view.Some?
    ensures Loaded(d, None).view.value.explanation == FallbackCard.explanation.value
    ensures Loaded(d, None).view.value.position == 1 && Loaded(d, None).view.value.total == 1
  {
  }

  /** `(current - 1 + cards.length) % cards.length`. */
  function PreviousPosition(i: int, n: int): int
    requires 0 <= i < n
  {
    (i - 1 + n) % n
  }

  /** The deck's previous position is the app's `previousCard` position:
      one back, and from the first card to the last. */
  lemma PreviousPositionWraps(i: int, n: int)
    requires 0 <= i < n
    ensures PreviousPosition(i, n) == Navigation.Previous(i, n)
  {
    var x := i - 1 + n;
    if i == 0 {
      assert x == n - 1;
    } else {
      assert n <= x < 2 * n;
      assert x == n * 1 + (i - 1);
    }
  }

  /** `nextCard`. The source has no guard for an empty deck. */
  function NextState(d: DeckState): (r: DeckState)
    requires ValidDeck(d) && |d.cards| > 0
    ensures ValidDeck(r)
  {
    Shown(d.(current := (d.current + 1) % |d.cards|))
  }

  /** `prevCard`. The source has no guard for an empty deck. */
  function PrevState(d: DeckState): (r: DeckState)
    requires ValidDeck(d) && |d.cards| > 0
    ensures ValidDeck(r)
  {
    Shown(d.(current := PreviousPosition(d.current, |d.cards|)))
  }

  /** Next and previous keep `current` a position of the deck, wrap around at
      both ends, and undo each other. */
  lemma DeckNavigationWraps(d: DeckState)
    requires ValidDeck(d) && |d.cards| > 0
    ensures NextState(d).current == Navigation.Next(d.current, |d.cards|)
    ensures PrevState(d).current == Navigation.Previous(d.current, |d.cards|)
    ensures 0 <= NextState(d).current < |d.cards| && 0 <= PrevState(d).current < |d.cards|
    ensures PrevState(NextState(d)).current == d.current
    ensures NextState(PrevState(d)).current == d.current
  {
    var n := |d.cards|;
    var next, prev := NextState(d), PrevState(d);
    assert next.current == (d.current + 1) % n && next.cards == d.cards;
    PreviousPositionWraps(d.current, n);
    assert prev.current == Navigation.Previous(d.current, n) && prev.cards == d.cards;
    PreviousPositionWraps(next.current, n);
    Navigation.NextPreviousInverse(d.current, n);
  }

  /** `flipCard`. */
  function FlippedState(d: DeckState): DeckState {
    d.(flipped := !d.flipped)
  }

  /** `toggleReverse`: swap the orientation and show the card again. */
  function ReversedState(d: DeckState): (r: DeckState)
    requires ValidDeck(d)
    ensures ValidDeck(r)
  {
    Shown(d.(reverse := !d.reverse))
  }

  /** Flipping twice restores the flip; reversing twice restores the
      orientation and shows the card as `showCard` would. */
  lemma TogglesUndo(d: DeckState)
    requires ValidDeck(d)
    ensures FlippedState(FlippedState(d)) == d
    ensures ReversedState(ReversedState(d)).reverse == d.reverse
    ensures ReversedState(ReversedState(d)) == Shown(d)
  {
  }

  /** `toggleExplanation`. */
  function ExplanationToggledState(d: DeckState): DeckState {
    d.(explanationVisible := !d.explanationVisible)
  }

  /** `[cards[i], cards[j]] = [cards[j], cards[i]]`. */
  function Swap<T>(s: seq<T>, i: nat, j: nat): (r: seq<T>)
    requires i < |s| && j < |s|
    ensures |r| == |s|
  {
    s[i := s[j]][j := s[i]]
  }

  /** The positions `Math.floor(Math.random() * (i + 1))` can draw: `js[i]`
      is the partner of position `i`, between 0 and `i`. */
  predicate Draws(js: seq<nat>, n: nat) {
    |js| == n && forall k :: 0 <= k < n ==> js[k] <= k
  }

  /** The loop of `shuffleCards` from position `i` down to 1. */
  function ShuffleFrom<T>(s: seq<T>, js: seq<nat>, i: int): (r: seq<T>)
    requires Draws(js, |s|) && i < |s|
    ensures |r| == |s|
    decreases i
  {
    if i <= 0 then s else ShuffleFrom(Swap(s, i, js[i]), js, i - 1)
  }

  /** The Fisher–Yates shuffle of `s` with the draws `js`. */
  function Shuffled<T>(s: seq<T>, js: seq<nat>): seq<T>
    requires Draws(js, |s|)
  {
    ShuffleFrom(s, js, |s| - 1)
  }

  lemma SwapIsPermutation<T>(s: seq<T>, i: nat, j: nat)
    requires i < |s| && j < |s|
    ensures multiset(Swap(s, i, j)) == multiset(s)
  {
    var t := s[i := s[j]];
    assert multiset(t) == multiset(s) - multiset{s[i]} + multiset{s[j]};
    assert t[j] == s[j];
    assert multiset(t[j := s[i]]) == multiset(t) - multiset{t[j]} + multiset{s[i]};
  }

  lemma {:induction false} ShuffleFromIsPermutation<T>(s: seq<T>, js: seq<nat>, i: int)
    requires Draws(js, |s|) && i < |s|
    ensures multiset(ShuffleFrom(s, js, i)) == multiset(s)
    decreases i
  {
    if i > 0 {
      SwapIsPermutation(s, i, js[i]);
      ShuffleFromIsPermutation(Swap(s, i, js[i]), js, i - 1);
    }
  }

  /** The shuffle rearranges the cards: it returns the same cards, each as
      many times as before. */
  lemma ShuffledIsPermutation<T>(s: seq<T>, js: seq<nat>)
    requires Draws(js, |s|)
    ensures multiset(Shuffled(s, js)) == multiset(s)
    ensures |Shuffled(s, js)| == |s|
  {
    ShuffleFromIsPermutation(s, js, |s| - 1);
  }

  /** With every draw equal to its own position nothing moves. */
  lemma {:induction false} IdentityDrawsKeepOrder<T>(s: seq<T>, js: seq<nat>, i: int)
    requires Draws(js, |s|) && i < |s|
    requires forall k :: 0 <= k < |s| ==> js[k] == k
    ensures ShuffleFrom(s, js, i) == s
    decreases i
  {
    if i > 0 {
      assert Swap(s, i, i) == s;
      IdentityDrawsKeepOrder(s, js, i - 1);
    }
  }

  /** `shuffleCards`: shuffle, then show the first card. */
  function ShuffledState(d: DeckState, js: seq<nat>): (r: DeckState)
    requires Draws(js, |d.cards|)
    ensures ValidDeck(r)
  {
    Shown(d.(cards := Shuffled(d.cards, js), current := 0))
  }

  /** After shuffling, the deck holds the same cards and shows the first. */
  lemma ShuffledStateRestarts(d: DeckState, js: seq<nat>)
    requires Draws(js, |d.cards|)
    ensures multiset(ShuffledState(d, js).cards) == multiset(d.cards)
    ensures ShuffledState(d, js).current == 0
    ensures |d.cards| > 0 ==> !ShuffledState(d, js).flipped
  {
    ShuffledIsPermutation(d.cards, js);
  }

  class SimpleDeck {
    var cards: array<RawCard>
    var current: int
    var reverse: bool
    var flipped: bool
    var explanationVisible: bool
    var view: Option<DeckView>

    /** The module variables, `cards` read as a list. */
    function State(): DeckState
      reads this, cards
    {
      DeckState(cards[..], current, reverse, flipped, explanationVisible, view)
    }

    predicate Valid()
      reads this, cards
    {
      ValidDeck(State())
    }

    /** The declarations at the top of the script. */
    constructor ()
      ensures State() == DeckState([], 0, false, false, false, None)
      ensures Valid()
    {
      cards := new RawCard[0];
      current := 0;
      reverse := false;
      flipped := false;
      explanationVisible := false;
      view := None;
    }

    /** `loadCards`, with the parsed array as `Some` and a failed fetch or
        parse as `None`. */
    method LoadCards(loaded: Option<seq<RawCard>>)
      requires Valid()
      modifies this
      ensures fresh(cards)
      ensures State() == Loaded(old(State()), loaded)
      ensures Valid()
    {
      var list := if loaded.Some? then loaded.value else [FallbackCard];
      cards := new RawCard[|list|](k requires 0 <= k < |list| => list[k]);
      current := 0;
      assert cards[..] == list;
      ShowCard();
    }

    method ShowCard()
      requires Positioned(State())
      modifies this
      ensures cards == old(cards)
      ensures State() == Shown(old(State()))
      ensures Valid()
    {
      if cards.Length == 0 {
        return;
      }
      var card := cards[current];
      var faces := FacesOf(card, reverse);
      view := Some(DeckView(faces.0, faces.1, current + 1, cards.Length, ExplanationFor(card)));
      flipped := false;
    }

    method FlipCard()
      requires Valid()
      modifies this
      ensures State() == FlippedState(old(State()))
      ensures Valid()
    {
      flipped := !flipped;
    }

    method NextCard()
      requires Valid() && cards.Length > 0
      modifies this
      ensures State() == NextState(old(State()))
      ensures Valid()
    {
      current := (current + 1) % cards.Length;
      ShowCard();
    }

    method PrevCard()
      requires Valid() && cards.Length > 0
      modifies this
      ensures State() == PrevState(old(State()))
      ensures Valid()
    {
      current := (current - 1 + cards.Length) % cards.Length;
      ShowCard();
    }

    method ToggleReverse()
      requires Valid()
      modifies this
      ensures State() == ReversedState(old(State()))
      ensures Valid()
    {
      reverse := !reverse;
      ShowCard();
    }

    method ToggleExplanation()
      requires Valid()
      modifies this
      ensures State() == ExplanationToggledState(old(State()))
      ensures Valid()
    {
      explanationVisible := !explanationVisible;
    }

    /** `shuffleCards`, with `js[i]` the position drawn for `i`. */
    method ShuffleCards(js: seq<nat>)
      requires Valid() && Draws(js, cards.Length)
      modifies this, cards
      ensures cards == old(cards)
      ensures State() == ShuffledState(old(State()), js)
      ensures Valid()
    {
      var i := cards.Length - 1;
      while i > 0
        invariant cards == old(cards)
        invariant -1 <= i < cards.Length
        invariant cards.Length == 0 ==> i == -1
        invariant ShuffleFrom(cards[..], js, i) == Shuffled(old(cards[..]), js)
        invariant current == old(current) && reverse == old(reverse) && view == old(view)
        invariant flipped == old(flipped) && explanationVisible == old(explanationVisible)
        decreases i
      {
        var j := js[i];
        ghost var before := cards[..];
        var tmp := cards[i];
        cards[i] := cards[j];
        cards[j] := tmp;
        assert cards[..] == Swap(before, i, j);
        i := i - 1;
      }
      current := 0;
      ShowCard();
    }
  }

  /** Usage example: the handlers in sequence; after a failed load, reversing twice shows
      the fallback card upright again, as the only card. */
  method FallbackSession() returns (front: string, total: nat)
    ensures front == FallbackCard.q && total == 1
  {
    var deck := new SimpleDeck();
    deck.LoadCards(None);
    deck.ToggleReverse();
    deck.ToggleReverse();
    front := deck.view.value.front;
    total := deck.view.value.total;
  }
}
