/** The filter pipeline of the study app (`applyFilters`) and the
    normalisation of the search term (`handleSearch`). */
module Filtering {
  import opened Wrappers
  import opened Text
  import opened Sequences
  import opened Cards

  /** The selector value that means "no restriction" for category and
      difficulty. */
  const Any: string := "todas"

  /** The filter fields of `appState`. */
  datatype FilterState = FilterState(category: string, difficulty: string, tags: set<string>, search: string)

  /** The filter state on page load, and the one "clear-filters" restores. */
  const Cleared: FilterState := FilterState(Any, Any, {}, "")

  /** The tag test: the card has a tags array holding every active tag. */
  predicate HasAllTags(c: Card, tags: set<string>) {
    c.tags.Some? && forall t :: t in tags ==> t in c.tags.value
  }

  /** The text the search looks in: question, answer, explanation and tags
      joined with single spaces, lower-cased. */
  function SearchText(c: Card): string {
    Lower(Join([c.q, c.a, ExplanationText(c)] + TagList(c), " "))
  }

  predicate CategoryPasses(f: FilterState, c: Card) {
    f.category == Any || c.category == f.category
  }

  predicate DifficultyPasses(f: FilterState, c: Card) {
    f.difficulty == Any || c.difficulty == f.difficulty
  }

  predicate TagsPass(f: FilterState, c: Card) {
    f.tags == {} || HasAllTags(c, f.tags)
  }

  predicate SearchPasses(f: FilterState, c: Card) {
    f.search == "" || Contains(SearchText(c), f.search)
  }

  /** A card survives the filters exactly when it passes all four tests. */
  predicate Matches(f: FilterState, c: Card) {
    CategoryPasses(f, c) && DifficultyPasses(f, c) && TagsPass(f, c) && SearchPasses(f, c)
  }

  /** `applyFilters`: four filter passes in the source's order, each skipped
      when its selector is unset. */
  function ApplyFilters(all: seq<Card>, f: FilterState): seq<Card> {
    var byCategory :=
      if f.category != Any then Select(all, (c: Card) => c.category == f.category) else all;
    var byDifficulty :=
      if f.difficulty != Any then Select(byCategory, (c: Card) => c.difficulty == f.difficulty) else byCategory;
    var byTags :=
      if |f.tags| > 0 then Select(byDifficulty, (c: Card) => HasAllTags(c, f.tags)) else byDifficulty;
    if f.search != "" then Select(byTags, (c: Card) => Contains(SearchText(c), f.search)) else byTags
  }

  /** One guarded pass equals a single filter by the guarded test. */
  lemma GuardedPass(s: seq<Card>, active: bool, p: Card -> bool, passes: Card -> bool)
    requires forall i :: 0 <= i < |s| ==> passes(s[i]) == (!active || p(s[i]))
    ensures (if active then Select(s, p) else s) == Select(s, passes)
  {
    if active {
      SelectAgree(s, p, passes);
    } else {
      SelectKeepsAll(s, passes);
    }
  }

  /** A guarded pass over the cards `prior` keeps is a single filter by
      `prior` and the guarded test together. */
  lemma GuardedStep(all: seq<Card>, s: seq<Card>, active: bool, p: Card -> bool,
                    prior: Card -> bool, next: Card -> bool)
    requires s == Select(all, prior)
    requires forall c :: next(c) == (prior(c) && (!active || p(c)))
    ensures (if active then Select(s, p) else s) == Select(all, next)
  {
    var passes := (c: Card) => !active || p(c);
    GuardedPass(s, active, p, passes);
    SelectTwice(all, prior, passes, next);
  }

  /** The four passes together are one order-preserving filter by `Matches`:
      the result is exactly the matching cards of `all`, in their order. */
  lemma ApplyFiltersIsOneFilter(all: seq<Card>, f: FilterState)
    ensures ApplyFilters(all, f) == Select(all, (c: Card) => Matches(f, c))
  {
    var p1 := (c: Card) => CategoryPasses(f, c);
    var p12 := (c: Card) => CategoryPasses(f, c) && DifficultyPasses(f, c);
    var p123 := (c: Card) => CategoryPasses(f, c) && DifficultyPasses(f, c) && TagsPass(f, c);
    var s1 := if f.category != Any then Select(all, (c: Card) => c.category == f.category) else all;
    GuardedPass(all, f.category != Any, (c: Card) => c.category == f.category, p1);
    var s2 := if f.difficulty != Any then Select(s1, (c: Card) => c.difficulty == f.difficulty) else s1;
    GuardedStep(all, s1, f.difficulty != Any, (c: Card) => c.difficulty == f.difficulty, p1, p12);
    var s3 := if |f.tags| > 0 then Select(s2, (c: Card) => HasAllTags(c, f.tags)) else s2;
    GuardedStep(all, s2, |f.tags| > 0, (c: Card) => HasAllTags(c, f.tags), p12, p123);
    GuardedStep(all, s3, f.search != "", (c: Card) => Contains(SearchText(c), f.search), p123,
                (c: Card) => Matches(f, c));
  }

  /** The filtered list is an order-preserving subsequence of all cards. */
  lemma ApplyFiltersIsSubsequence(all: seq<Card>, f: FilterState)
    ensures IsSubsequence(ApplyFilters(all, f), all)
  {
    ApplyFiltersIsOneFilter(all, f);
    SelectIsSubsequence(all, (c: Card) => Matches(f, c));
  }

  /** A card is in the filtered list exactly when it is one of the cards and
      passes every active test: category and difficulty by equality unless
      "todas", tags by AND, search by substring unless empty. */
  lemma ApplyFiltersMembership(all: seq<Card>, f: FilterState, c: Card)
    ensures c in ApplyFilters(all, f) <==>
      && c in all
      && (f.category == Any || c.category == f.category)
      && (f.difficulty == Any || c.difficulty == f.difficulty)
      && (f.tags == {} || (c.tags.Some? && forall t :: t in f.tags ==> t in c.tags.value))
      && (f.search == "" || Contains(SearchText(c), f.search))
  {
    ApplyFiltersIsOneFilter(all, f);
    SelectMembership(all, (c: Card) => Matches(f, c), c);
  }

  /** With the cleared filter state nothing is filtered out. */
  lemma ClearedFilterKeepsAll(all: seq<Card>)
    ensures ApplyFilters(all, Cleared) == all
  {
    ApplyFiltersIsOneFilter(all, Cleared);
    SelectKeepsAll(all, (c: Card) => Matches(Cleared, c));
  }

  /** A card without a tags array fails any non-empty tag filter. */
  lemma UntaggedCardFailsTagFilter(all: seq<Card>, f: FilterState, c: Card)
    requires c.tags.None? && f.tags != {}
    ensures c !in ApplyFilters(all, f)
  {
    ApplyFiltersMembership(all, f, c);
  }

  /** Activating one more tag keeps a subsequence of what was shown before,
      so the result never grows. */
  lemma MoreTagsNarrow(all: seq<Card>, f: FilterState, t: string)
    ensures IsSubsequence(ApplyFilters(all, f.(tags := f.tags + {t})), ApplyFilters(all, f))
    ensures |ApplyFilters(all, f.(tags := f.tags + {t}))| <= |ApplyFilters(all, f)|
  {
    var g := f.(tags := f.tags + {t});
    ApplyFiltersIsOneFilter(all, f);
    ApplyFiltersIsOneFilter(all, g);
    SelectMonotone(all, (c: Card) => Matches(g, c), (c: Card) => Matches(f, c));
    SubsequenceLength(ApplyFilters(all, g), ApplyFilters(all, f));
  }

  /** A word that occurs in a card's question, answer, explanation or one of
      its tags, in whatever letter case, is found by the lower-cased search
      term. */
  lemma SearchFindsWordInAnyField(c: Card, w: string)
    requires || Contains(c.q, w) || Contains(c.a, w) || Contains(ExplanationText(c), w)
             || exists i :: 0 <= i < |TagList(c)| && Contains(TagList(c)[i], w)
    ensures Contains(SearchText(c), Lower(w))
  {
    var parts := [c.q, c.a, ExplanationText(c)] + TagList(c);
    if Contains(c.q, w) {
      ContainsInJoin(parts, " ", 0, w);
    } else if Contains(c.a, w) {
      ContainsInJoin(parts, " ", 1, w);
    } else if Contains(ExplanationText(c), w) {
      ContainsInJoin(parts, " ", 2, w);
    } else {
      var i :| 0 <= i < |TagList(c)| && Contains(TagList(c)[i], w);
      assert parts[3 + i] == TagList(c)[i];
      ContainsInJoin(parts, " ", 3 + i, w);
    }
    ContainsLower(Join(parts, " "), w);
  }

  /** `handleSearch`: `value.toLowerCase().trim()`. */
  function NormalizeSearch(value: string): string {
    Trim(Lower(value))
  }

  /** The normalised term is lower-case, neither starts nor ends with
      whitespace, and normalising it again changes nothing. */
  lemma NormalizeSearchIsCanonical(value: string)
    ensures IsLowerCase(NormalizeSearch(value))
    ensures NormalizeSearch(value) == [] ||
      (!IsWhitespace(NormalizeSearch(value)[0]) && !IsWhitespace(NormalizeSearch(value)[|NormalizeSearch(value)| - 1]))
    ensures NormalizeSearch(NormalizeSearch(value)) == NormalizeSearch(value)
  {
    var low := Lower(value);
    var i, j := TrimIsMaximalSlice(low);
    var t := NormalizeSearch(value);
    assert t == low[i..j];
    assert IsLowerCase(t);
    LowerOfLowerCase(t);
    TrimIdempotent(low);
  }

  /** A card whose answer contains a word typed in any mix of letter cases
      survives a search for that word once `handleSearch` has normalised
      it, e.g. an answer "Anagrama de AMOR" and the typed term " anagrama ". */
  lemma SearchIsCaseInsensitive(all: seq<Card>, f: FilterState, c: Card, typed: string, word: string)
    requires c in all && CategoryPasses(f, c) && DifficultyPasses(f, c) && TagsPass(f, c)
    requires Contains(c.a, word) && NormalizeSearch(typed) == Lower(word)
    ensures c in ApplyFilters(all, f.(search := NormalizeSearch(typed)))
  {
    SearchFindsWordInAnyField(c, word);
    ApplyFiltersMembership(all, f.(search := NormalizeSearch(typed)), c);
  }

  /** `toggleTag`'s update of the active tag set. */
  function Toggled(tags: set<string>, t: string): (r: set<string>)
    ensures t in r <==> t !in tags
    ensures forall u :: u != t ==> (u in r <==> u in tags)
  {
    if t in tags then tags - {t} else tags + {t}
  }

  /** Toggling a tag twice restores the active set. */
  lemma ToggleTwiceRestores(tags: set<string>, t: string)
    ensures Toggled(Toggled(tags, t), t) == tags
  {
  }
}
