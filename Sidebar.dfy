/** The sidebar counters of the study page (`updateCounters`): how many
    cards each category, difficulty and tag button stands for. */
module Sidebar {
  import opened Wrappers
  import opened Sequences
  import opened Counting
  import opened Cards
  import Filtering

  /** The category buttons that get a counter. */
  const CategoryKeys: set<string> := {"todas", "permutacao", "arranjo", "combinacao", "principios"}

  /** The difficulty buttons that get a counter; "avancado" has none. */
  const DifficultyKeys: set<string> := {"todas", "basico", "intermediario"}

  /** The number of cards of category `k`. */
  function CategorySize(all: seq<Card>, k: string): nat {
    |Select(all, (c: Card) => c.category == k)|
  }

  /** The number of cards of difficulty `k`. */
  function DifficultySize(all: seq<Card>, k: string): nat {
    |Select(all, (c: Card) => c.difficulty == k)|
  }

  /** `categoryCounters`: "todas" counts every card, each other key the
      cards of that category. */
  function CategoryCounters(all: seq<Card>): map<string, nat> {
    map k | k in CategoryKeys :: if k == "todas" then |all| else CategorySize(all, k)
  }

  /** `difficultyCounters`. */
  function DifficultyCounters(all: seq<Card>): map<string, nat> {
    map k | k in DifficultyKeys :: if k == "todas" then |all| else DifficultySize(all, k)
  }

  /** Each category counter shows how many cards clicking that category (with
      the other filters cleared) displays. */
  lemma CategoryCounterIsFilterSize(all: seq<Card>, k: string)
    requires k in CategoryKeys
    ensures CategoryCounters(all)[k] == |Filtering.ApplyFilters(all, Filtering.Cleared.(category := k))|
  {
    if k == "todas" {
      Filtering.ClearedFilterKeepsAll(all);
    }
  }

  /** Each difficulty counter shows how many cards clicking that difficulty
      (with the other filters cleared) displays. */
  lemma DifficultyCounterIsFilterSize(all: seq<Card>, k: string)
    requires k in DifficultyKeys
    ensures DifficultyCounters(all)[k] == |Filtering.ApplyFilters(all, Filtering.Cleared.(difficulty := k))|
  {
    if k == "todas" {
      Filtering.ClearedFilterKeepsAll(all);
    }
  }

  /** The category counter is the number of occurrences of the category in
      the list of the cards' categories. */
  lemma {:induction false} CategorySizeIsCount(all: seq<Card>, k: string)
    ensures CategorySize(all, k) == Count(CategoriesOf(all), k)
    decreases |all|
  {
    if all != [] {
      var init, last := all[..|all| - 1], all[|all| - 1];
      CategorySizeIsCount(init, k);
      assert all == init + [last];
      SelectAppend(init, last, (c: Card) => c.category == k);
      assert CategoriesOf(all)[..|all| - 1] == CategoriesOf(init);
    }
  }

  /** The difficulty counter is the number of occurrences of the difficulty
      in the list of the cards' difficulties. */
  lemma {:induction false} DifficultySizeIsCount(all: seq<Card>, k: string)
    ensures DifficultySize(all, k) == Count(DifficultiesOf(all), k)
    decreases |all|
  {
    if all != [] {
      var init, last := all[..|all| - 1], all[|all| - 1];
      DifficultySizeIsCount(init, k);
      assert all == init + [last];
      SelectAppend(init, last, (c: Card) => c.difficulty == k);
      assert DifficultiesOf(all)[..|all| - 1] == DifficultiesOf(init);
    }
  }

  /** The four category counters add up to at most the "todas" counter, and
      to exactly it when every card belongs to one of the four categories. */
  lemma CategoryCountersSum(all: seq<Card>)
    ensures var m := CategoryCounters(all);
      m["permutacao"] + m["arranjo"] + m["combinacao"] + m["principios"] <= m["todas"]
    ensures var m := CategoryCounters(all);
      (forall i :: 0 <= i < |all| ==> all[i].category in CategoryKeys - {"todas"}) ==>
        m["permutacao"] + m["arranjo"] + m["combinacao"] + m["principios"] == m["todas"]
  {
    FourCategorySizesSum(all);
  }

  /** The cards of the four named categories together. */
  function FourCategorySizes(all: seq<Card>): nat {
    CategorySize(all, "permutacao") + CategorySize(all, "arranjo")
      + CategorySize(all, "combinacao") + CategorySize(all, "principios")
  }

  lemma {:induction false} FourCategorySizesSum(all: seq<Card>)
    ensures FourCategorySizes(all) <= |all|
    ensures (forall i :: 0 <= i < |all| ==> all[i].category in CategoryKeys - {"todas"}) ==>
      FourCategorySizes(all) == |all|
    decreases |all|
  {
    if all != [] {
      var rest := all[1..];
      FourCategorySizesSum(rest);
      if forall i :: 0 <= i < |all| ==> all[i].category in CategoryKeys - {"todas"} {
        assert forall i :: 0 <= i < |rest| ==> rest[i].category in CategoryKeys - {"todas"} by {
          forall i | 0 <= i < |rest| ensures rest[i].category in CategoryKeys - {"todas"} {
            assert rest[i] == all[i + 1];
          }
        }
        assert all[0].category in CategoryKeys - {"todas"};
      }
    }
  }

  /** `card.tags.forEach(tag => tagCounts[tag] = (tagCounts[tag] || 0) + 1)`
      over every card whose `tags` is an array: the counts of `AllTags`. */
  method TagCounts(all: seq<Card>) returns (counts: map<string, nat>)
    ensures counts == Histogram(AllTags(all))
  {
    counts := map[];
    var i := 0;
    while i < |all|
      invariant 0 <= i <= |all|
      invariant counts == Histogram(AllTags(all[..i]))
    {
      var card := all[i];
      PrefixStep(all, i);
      if card.tags.Some? {
        var tags := card.tags.value;
        var j := 0;
        assert AllTags(all[..i]) + tags[..0] == AllTags(all[..i]);
        while j < |tags|
          invariant 0 <= j <= |tags|
          invariant counts == Histogram(AllTags(all[..i]) + tags[..j])
        {
          TagStep(AllTags(all[..i]), tags, j);
          counts := counts[tags[j] := Lookup(counts, tags[j]) + 1];
          j := j + 1;
        }
        assert tags[..j] == tags;
      } else {
        assert AllTags(all[..i]) + TagList(card) == AllTags(all[..i]);
      }
      i := i + 1;
    }
    assert all[..i] == all;
  }

  /** Counting tag `j` of a card extends the histogram of the tags before it. */
  lemma TagStep(before: seq<string>, tags: seq<string>, j: nat)
    requires j < |tags|
    ensures var h := Histogram(before + tags[..j]);
      Histogram(before + tags[..j + 1]) == h[tags[j] := Lookup(h, tags[j]) + 1]
  {
    assert before + tags[..j + 1] == (before + tags[..j]) + [tags[j]];
    HistogramAppend(before + tags[..j], tags[j]);
  }

  /** The cards a one-tag filter shows. */
  function TaggedCards(all: seq<Card>, t: string): seq<Card> {
    Filtering.ApplyFilters(all, Filtering.Cleared.(tags := {t}))
  }

  /** A tag's counter is never below the number of cards its button shows,
      and equals it when no card lists a tag twice. */
  lemma {:induction false} TagCounterCountsCards(all: seq<Card>, t: string)
    ensures |TaggedCards(all, t)| <= Count(AllTags(all), t)
    ensures (forall i :: 0 <= i < |all| ==> Distinct(TagList(all[i]))) ==>
      |TaggedCards(all, t)| == Count(AllTags(all), t)
    decreases |all|
  {
    if all != [] {
      var init, last := all[..|all| - 1], all[|all| - 1];
      TagCounterCountsCards(init, t);
      assert all == init + [last];
      TaggedStep(init, last, t);
      CountPositive(TagList(last), t);
      if Distinct(TagList(last)) {
        CountDistinct(TagList(last), t);
      }
      if forall i :: 0 <= i < |all| ==> Distinct(TagList(all[i])) {
        assert forall i :: 0 <= i < |init| ==> Distinct(TagList(init[i])) by {
          forall i | 0 <= i < |init| ensures Distinct(TagList(init[i])) {
            assert init[i] == all[i];
          }
        }
        assert Distinct(TagList(all[|all| - 1]));
      }
    }
  }

  /** One more card adds one shown card when it lists the tag, and its own
      occurrences of the tag to the counter. */
  lemma TaggedStep(init: seq<Card>, last: Card, t: string)
    ensures |TaggedCards(init + [last], t)| == |TaggedCards(init, t)| + (if t in TagList(last) then 1 else 0)
    ensures Count(AllTags(init + [last]), t) == Count(AllTags(init), t) + Count(TagList(last), t)
  {
    var has := (c: Card) => Filtering.HasAllTags(c, {t});
    var all := init + [last];
    assert TaggedCards(all, t) == Select(all, has);
    assert TaggedCards(init, t) == Select(init, has);
    SelectAppend(init, last, has);
    assert has(last) <==> t in TagList(last);
    assert all[..|all| - 1] == init;
    CountConcat(AllTags(init), TagList(last), t);
  }

  /** The tag counters hold exactly the tags that occur, and add up to the
      total number of tag entries. */
  lemma TagCountsTotal(all: seq<Card>, t: string)
    ensures t in Histogram(AllTags(all)) <==> t in AllTags(all)
    ensures Total(Histogram(AllTags(all))) == |AllTags(all)|
  {
    HistogramCounts(AllTags(all), t);
    HistogramTotal(AllTags(all));
  }
}
