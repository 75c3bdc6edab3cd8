/** The one-off script that moves the cards into the hierarchical structure
    (`restructure.js`): it counts the cards per category and per difficulty
    and writes those counts into the metadata entries the structure already
    has. */
module Restructure {
  import opened Counting
  import opened Cards
  import Sidebar

  /** One entry of `metadata.categories` or `metadata.difficulties`: its
      `count` and its other properties, which the script never touches. */
  datatype Entry = Entry(count: int, properties: map<string, string>)

  /** `stats[k] = (stats[k] || 0) + 1` for the category and the difficulty
      of every card, in order. */
  method CountCards(cards: seq<Card>) returns (categoryStats: map<string, nat>, difficultyStats: map<string, nat>)
    ensures categoryStats == Histogram(CategoriesOf(cards))
    ensures difficultyStats == Histogram(DifficultiesOf(cards))
  {
    categoryStats, difficultyStats := map[], map[];
    var i := 0;
    while i < |cards|
      invariant 0 <= i <= |cards|
      invariant categoryStats == Histogram(CategoriesOf(cards[..i]))
      invariant difficultyStats == Histogram(DifficultiesOf(cards[..i]))
    {
      var card := cards[i];
      CountStep(cards, i);
      categoryStats := categoryStats[card.category := Lookup(categoryStats, card.category) + 1];
      difficultyStats := difficultyStats[card.difficulty := Lookup(difficultyStats, card.difficulty) + 1];
      i := i + 1;
    }
    assert cards[..i] == cards;
  }

  /** Counting card `i` extends both histograms of the cards before it. */
  lemma CountStep(cards: seq<Card>, i: nat)
    requires i < |cards|
    ensures var h := Histogram(CategoriesOf(cards[..i])); var c := cards[i].category;
      Histogram(CategoriesOf(cards[..i + 1])) == h[c := Lookup(h, c) + 1]
    ensures var h := Histogram(DifficultiesOf(cards[..i])); var d := cards[i].difficulty;
      Histogram(DifficultiesOf(cards[..i + 1])) == h[d := Lookup(h, d) + 1]
  {
    PrefixStep(cards, i);
    HistogramAppend(CategoriesOf(cards[..i]), cards[i].category);
    HistogramAppend(DifficultiesOf(cards[..i]), cards[i].difficulty);
  }

  /** The entries after `entries[k].count = stats[k] || 0` for every key `k`
      the entries already have. */
  function CountsWritten(entries: map<string, Entry>, stats: map<string, nat>): (r: map<string, Entry>)
    ensures r.Keys == entries.Keys
    ensures forall k :: k in r ==> r[k] == entries[k].(count := Lookup(stats, k))
  {
    map k | k in entries :: entries[k].(count := Lookup(stats, k))
  }

  /** The loop over `Object.keys(entries)`, one key at a time. */
  method WriteCounts(entries: map<string, Entry>, stats: map<string, nat>) returns (updated: map<string, Entry>)
    ensures updated == CountsWritten(entries, stats)
  {
    updated := entries;
    var pending := entries.Keys;
    while pending != {}
      invariant pending <= entries.Keys
      invariant updated.Keys == entries.Keys
      invariant forall k :: k in entries ==>
        updated[k] == if k in pending then entries[k] else entries[k].(count := Lookup(stats, k))
      decreases pending
    {
      var k :| k in pending;
      updated := updated[k := updated[k].(count := Lookup(stats, k))];
      pending := pending - {k};
    }
  }

  /** The parsed `cards_structure.json`, updated in place. */
  class Structure {
    var cards: seq<Card>
    var totalCards: int
    var categories: map<string, Entry>
    var difficulties: map<string, Entry>

    constructor(cards: seq<Card>, totalCards: int, categories: map<string, Entry>, difficulties: map<string, Entry>)
      ensures this.cards == cards && this.totalCards == totalCards
      ensures this.categories == categories && this.difficulties == difficulties
    {
      this.cards := cards;
      this.totalCards := totalCards;
      this.categories := categories;
      this.difficulties := difficulties;
    }

    /** The body of the script: the cards move in, `totalCards` is their
        number, and every metadata entry gets the count of its key. */
    method Restructure(input: seq<Card>)
      modifies this
      ensures cards == input && totalCards == |input|
      ensures categories == CountsWritten(old(categories), Histogram(CategoriesOf(input)))
      ensures difficulties == CountsWritten(old(difficulties), Histogram(DifficultiesOf(input)))
    {
      cards := input;
      totalCards := |input|;
      var categoryStats, difficultyStats := CountCards(input);
      categories := WriteCounts(categories, categoryStats);
      difficulties := WriteCounts(difficulties, difficultyStats);
    }
  }

  /** `categoryStats[c]` is the number of cards of category `c`, the same
      number the sidebar counter of `c` shows; a category no card has has
      no key. */
  lemma CategoryStatsCountCards(cards: seq<Card>, c: string)
    ensures Lookup(Histogram(CategoriesOf(cards)), c) == Sidebar.CategorySize(cards, c)
    ensures c in Histogram(CategoriesOf(cards)) <==> exists i :: 0 <= i < |cards| && cards[i].category == c
  {
    HistogramCounts(CategoriesOf(cards), c);
    Sidebar.CategorySizeIsCount(cards, c);
    if c in CategoriesOf(cards) {
      var i :| 0 <= i < |cards| && CategoriesOf(cards)[i] == c;
      assert cards[i].category == c;
    }
    if exists i :: 0 <= i < |cards| && cards[i].category == c {
      var i :| 0 <= i < |cards| && cards[i].category == c;
      assert CategoriesOf(cards)[i] == c;
    }
  }

  /** `difficultyStats[d]` is the number of cards of difficulty `d`. */
  lemma DifficultyStatsCountCards(cards: seq<Card>, d: string)
    ensures Lookup(Histogram(DifficultiesOf(cards)), d) == Sidebar.DifficultySize(cards, d)
    ensures d in Histogram(DifficultiesOf(cards)) <==> exists i :: 0 <= i < |cards| && cards[i].difficulty == d
  {
    HistogramCounts(DifficultiesOf(cards), d);
    Sidebar.DifficultySizeIsCount(cards, d);
    if d in DifficultiesOf(cards) {
      var i :| 0 <= i < |cards| && DifficultiesOf(cards)[i] == d;
      assert cards[i].difficulty == d;
    }
    if exists i :: 0 <= i < |cards| && cards[i].difficulty == d {
      var i :| 0 <= i < |cards| && cards[i].difficulty == d;
      assert DifficultiesOf(cards)[i] == d;
    }
  }

  /** Each histogram's counts add up to the number of cards. */
  lemma StatsSumToCardCount(cards: seq<Card>)
    ensures Total(Histogram(CategoriesOf(cards))) == |cards|
    ensures Total(Histogram(DifficultiesOf(cards))) == |cards|
  {
    HistogramTotal(CategoriesOf(cards));
    HistogramTotal(DifficultiesOf(cards));
  }

  /** When every card's category has an entry, the written category counts
      add up to the number of cards; a category without an entry is counted
      but not written, and its cards are missing from the sum. */
  lemma WrittenCountsSum(entries: map<string, Entry>, cards: seq<Card>)
    requires forall i :: 0 <= i < |cards| ==> cards[i].category in entries
    ensures var written := CountsWritten(entries, Histogram(CategoriesOf(cards)));
      Total(map k | k in written :: Lookup(Histogram(CategoriesOf(cards)), k)) == |cards|
  {
    var h := Histogram(CategoriesOf(cards));
    var written := CountsWritten(entries, h);
    var m := map k | k in written :: Lookup(h, k);
    SumOverZeroElsewhere(m, h, m.Keys);
    forall k | k in h
      ensures k in m
    {
      HistogramCounts(CategoriesOf(cards), k);
    }
    assert m.Keys * h.Keys == h.Keys;
    HistogramTotal(CategoriesOf(cards));
  }
}
