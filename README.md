# A Dafny model of the combinatorics flashcard site

The site teaches combinatorics (permutations, arrangements, combinations,
counting principles) with three parts:

- **The study page** (`script.js`).
  - It keeps all cards and a filtered list. The filters are category,
    difficulty, a set of tags and a search term.
  - It navigates the filtered list with wrap-around and keeps study-session
    counters.
  - A quiz mode steps through multiple-choice questions.
- **The stand-alone deck page** (`flashcards.js`). It shows, flips, reverses
  and shuffles a plain list of cards.
- **Two one-off scripts.**
  - `add_metadata.js` derives each card's category, difficulty and tags from
    keyword rules over its lower-cased text, and numbers the cards.
  - `restructure.js` moves the cards into a structure file and writes
    per-category and per-difficulty counts into it.

## How the model is organised

- **Values.** The records are datatypes: `Cards.RawCard`, `Cards.Card` and
  `Cards.Question`. The JavaScript string built-ins the code relies on are
  functions in `Text`: `toLowerCase`, `trim`, `includes` and `join`.
- **The study page.**
  - `Study.StudyApp` is a class whose fields are the page's module
    variables.
  - Every handler is a method proved against a pure transition function on
    the snapshot `Study.AppState`. That is, `ensures State() ==
    F(old(State()), ...)`, and every handler keeps the invariant `Valid()`.
  - What the page promises is proved as lemmas about those functions.
  - The filter pipeline is in `Filtering`, the index arithmetic in
    `Navigation`, and the sidebar counters in `Sidebar`.
- **The deck page.** `Deck.SimpleDeck` keeps its cards in an `array`, which
  its shuffle permutes in place. The shuffle is proved to be a permutation.
- **The scripts.** `Metadata` models the keyword rules. `Restructure`
  models the counting loops as methods and the structure file as the class
  `Restructure.Structure`.
- **Randomness and I/O as parameters.**
  - The random positions `Math.random` would produce are parameters.
  - The outcome of a `fetch` or of reading a file is a parameter.
  - A successful parse is `Received(Some(list))`. An object without its list
    property is `Received(None)`, and a failure is `Failed`.

## Model

| member | source | states |
|---|---|---|
| Text.LowerChar | script.js:306 | `toLowerCase` on one character: a known capital (ASCII A–Z, Latin-1 À–Þ except ×) becomes the letter 32 code points above; any other character is unchanged; the result is never a capital |
| Text.Lower | add_metadata.js:9-15 | `toLowerCase` keeps the length and lower-cases each character in place |
| Text.LowerIsLowerCase | add_metadata.js:9-15 | a lower-cased string has no capital left |
| Text.LowerOfLowerCase | add_metadata.js:19-22 | lower-casing a string without capitals (every keyword of the rules) leaves it as it is |
| Text.LowerConcat | add_metadata.js:9-15 | lower-casing distributes over concatenation |
| Text.ContainsFromSlice | add_metadata.js:19 | `includes` holds when the key occurs at some position |
| Text.SliceFromContains | add_metadata.js:19 | `includes` holds only because of an occurrence at some position |
| Text.ContainsInConcat | script.js:359-368 | an occurrence inside one part of a concatenation is an occurrence in the whole |
| Text.ContainsTransitive | add_metadata.js:99-100 | an occurrence of a text that itself contains the key is an occurrence of the key |
| Text.ContainsLower | script.js:366-368 | lower-casing both the text and the key keeps an occurrence |
| Text.TrimIsMaximalSlice | script.js:306 | `trim` returns the slice left once the leading and trailing whitespace runs are removed, and that slice neither starts nor ends with whitespace |
| Text.TrimStartCut | script.js:306 | dropping the leading whitespace leaves a suffix that starts with a non-whitespace character |
| Text.TrimEndCut | script.js:306 | dropping the trailing whitespace leaves a prefix that ends with a non-whitespace character |
| Text.TrimIdempotent | script.js:306 | trimming twice is trimming once |
| Text.ContainsInJoin | script.js:359-366 | a key that occurs in one of the joined parts occurs in the joined string |
| Sequences.SelectMembership | script.js:334-336 | `filter` keeps exactly the elements that pass the test |
| Sequences.SelectIsSubsequence | script.js:334-336 | `filter` keeps the order: its result is a subsequence of its input |
| Counting.HistogramCounts | restructure.js:21-24 | the counts built by `stats[k] = (stats[k] \|\| 0) + 1` hold a key exactly when it occurs, and its number of occurrences |
| Counting.HistogramTotal | restructure.js:21-24 | the counts add up to the number of elements counted |
| Navigation.Next | script.js:495 | `nextCard`'s index is in range and is the next position, the last one wrapping to the first |
| Navigation.Previous | script.js:501-502 | `previousCard`'s index is in range and is the previous position, the first one wrapping to the last |
| Navigation.NextPreviousInverse | script.js:493-504 | stepping back undoes stepping forward and the other way round |
| Navigation.ShowIndex | script.js:445-446 | `showCard` turns a negative index into the last position and one past the end into the first; an index in range is kept |
| Navigation.ShowIndexWrapsLikeNavigation | script.js:445-446 | asking `showCard` for one past either end lands where `nextCard` and `previousCard` land |
| Navigation.Advance | script.js:495 | `k` presses of next keep the index in range |
| Navigation.Retreat | script.js:501-502 | `k` presses of previous keep the index in range |
| Navigation.AdvanceWithinRange | script.js:495 | forward steps that stay before the end just add up |
| Navigation.RetreatWithinRange | script.js:501-502 | backward steps that stay after the start just subtract |
| Navigation.AdvanceCompose | script.js:495 | `a + b` forward steps are `a` steps followed by `b` steps |
| Navigation.RetreatCompose | script.js:501-502 | `a + b` backward steps are `a` steps followed by `b` steps |
| Navigation.FullCycleForward | script.js:493-497 | pressing next once per card returns to the starting card |
| Navigation.FullCycleBackward | script.js:499-504 | pressing previous once per card returns to the starting card |
| Navigation.ClampIndex | script.js:1246-1249 | `showQuestion` clamps into range instead of wrapping: below the range to the first, beyond it to the last |
| Filtering.ApplyFilters | script.js:333-370 | `applyFilters`' four passes in the source's order (category, difficulty, tags, search), each skipped when its selector is unset; `ApplyFiltersIsOneFilter`, `ApplyFiltersMembership` and `ApplyFiltersIsSubsequence` state what the result is |
| Filtering.ApplyFiltersIsOneFilter | script.js:329-370 | the four guarded passes of `applyFilters` equal one order-preserving filter by the conjunction of the four tests |
| Filtering.ApplyFiltersIsSubsequence | script.js:329-370 | the filtered list is a subsequence of all cards |
| Filtering.ApplyFiltersMembership | script.js:329-370 | a card is shown exactly when it is one of the cards and passes each active test: category and difficulty by equality unless "todas", every active tag in its tags array, the search term as a substring of its lower-cased joined text |
| Filtering.ClearedFilterKeepsAll | script.js:413-417 | with the cleared filters every card is shown, in order |
| Filtering.UntaggedCardFailsTagFilter | script.js:349 | a card whose `tags` is not an array fails any non-empty tag filter |
| Filtering.MoreTagsNarrow | script.js:347-354 | activating one more tag keeps a subsequence of what was shown, so the list never grows |
| Filtering.SearchFindsWordInAnyField | script.js:359-368 | a word in the question, the answer, the explanation or a tag, in any letter case, is found by the lower-cased term |
| Filtering.NormalizeSearchIsCanonical | script.js:306 | the stored search term is lower-case, neither starts nor ends with whitespace, and normalising it again changes nothing |
| Filtering.SearchIsCaseInsensitive | script.js:305-307 | a card whose answer holds the typed word, in any case and with surrounding blanks, survives the search |
| Filtering.Toggled | script.js:296-300 | `toggleTag` flips the membership of the tag and of no other tag |
| Filtering.ToggleTwiceRestores | script.js:295-300 | toggling a tag twice restores the active set |
| Sidebar.CategoryCounters | script.js:709-715 | `updateCounters`' category object: "todas" holds every card and each named category its cards; `CategoryCounterIsFilterSize` and `CategoryCountersSum` state what the counters mean |
| Sidebar.DifficultyCounters | script.js:717-722 | `updateCounters`' difficulty object: "todas" holds every card and "basico" and "intermediario" their cards; `DifficultyCounterIsFilterSize` states what the counters mean |
| Sidebar.CategoryCounterIsFilterSize | script.js:709-715 | each category counter equals the number of cards clicking that category shows with the other filters cleared |
| Sidebar.DifficultyCounterIsFilterSize | script.js:717-722 | each difficulty counter equals the number of cards clicking that difficulty shows with the other filters cleared |
| Sidebar.CategorySizeIsCount | script.js:711-714 | a category counter is the number of occurrences of the category among the cards' categories |
| Sidebar.DifficultySizeIsCount | script.js:719-721 | a difficulty counter is the number of occurrences of the difficulty among the cards' difficulties |
| Sidebar.CategoryCountersSum | script.js:709-715 | the four named category counters add up to at most the "todas" counter, and to exactly it when every card has one of the four categories |
| Sidebar.FourCategorySizesSum | script.js:711-714 | the cards of the four named categories are at most all cards, and all of them when no card has another category |
| Sidebar.TagCounts | script.js:740-747 | the nested loop over the cards' tag arrays computes the histogram of all tags, card by card in order |
| Sidebar.TagCounterCountsCards | script.js:740-747 | a tag's counter is never below the number of cards its button shows, and equals it when no card lists a tag twice |
| Sidebar.TagCountsTotal | script.js:740-747 | the tag counters hold exactly the tags that occur and add up to the number of tag entries |
| Study.Record | script.js:564 | `sessionStats[result]++` increments exactly the named counter |
| Study.RecordCountsOneAnswer | script.js:564 | recording an outcome counts exactly one more answer |
| Study.StartIsValid | script.js:2-35 | the declared initial state satisfies the invariant |
| Study.ShownIsValid | script.js:439-491 | `showCard` establishes the invariant: the index is a position of a non-empty list and a displayed card is the card at the index |
| Study.ShownDisplaysCard | script.js:445-489 | with intact markup `showCard` displays the card at the wrapped index question side up, closes the explanation unless the card has a non-blank one, and touches neither lists, filters nor counters |
| Study.NoCardsMessageStays | script.js:456-463 | once the no-cards message has replaced the markup, `showCard` only moves the index |
| Study.RefilteredResult | script.js:329-384 | after `applyFilters` the list is exactly the matching cards in order, the index is 0, the invariant holds, and an empty result shows the no-cards message |
| Study.LoadedShowsAllCards | script.js:59-68 | a successful load shows every loaded card from the first one, whatever the filters |
| Study.LoadedWithoutList | script.js:60 | a file without a `cards` list loads as an empty list and shows the no-cards message |
| Study.WithCategoryMembership | script.js:277-279 | selecting a category shows exactly the cards of that category (all for "todas") that pass the other filters |
| Study.FiltersClearedShowsAll | script.js:411-424 | "clear-filters" shows every card, from the first, with the cleared filter state |
| Study.RefilteredKeeps | script.js:329-374 | `applyFilters` keeps the full list and the filter it applied |
| Study.TagToggledTwice | script.js:295-303 | toggling a tag twice restores the filter and the list it selects |
| Study.SearchClearedKeepsOtherFilters | script.js:315-320 | clearing the search drops the search restriction and nothing else |
| Study.NextCardState | script.js:493-497 | `nextCard` keeps the invariant |
| Study.PreviousCardState | script.js:499-504 | `previousCard` keeps the invariant |
| Study.RandomCardState | script.js:506-510 | `showRandomCard` keeps the invariant for any drawn position |
| Study.CardNavigationWraps | script.js:493-504 | next and previous do nothing on an empty list and otherwise wrap at both ends without touching the list |
| Study.NextThenPrevious | script.js:493-504 | next then previous returns to the same card |
| Study.NextCardTimes | script.js:493-497 | any number of presses of next keeps the invariant |
| Study.NextCardTimesAdvances | script.js:493-497 | `k` presses of next advance the index `k` positions with wrap-around |
| Study.NextCardFullCycle | script.js:493-497 | pressing next once per card comes back to the starting card |
| Study.FlippedTwice | script.js:512-516 | flipping changes the side shown and flipping twice restores the state |
| Study.StudyModeDefinitionsDiffer | script.js:1096-1102 | the declared `toggleStudyMode` and the `window` one agree on the mode; only the declared one zeroes the counters, on entering the mode |
| Study.AnsweredCardCounts | script.js:563-564 | answering a card increments exactly the counter of the outcome and changes nothing else |
| Study.ActionHandled | script.js:411-436 | every sidebar action keeps the invariant |
| Study.QuestionShownClamps | script.js:1238-1252 | `showQuestion` clamps the index into range and starts the question unanswered |
| Study.SwitchedToQuestionsStarts | script.js:1156-1204 | entering the quiz mode keeps the current question (clamped), unanswered; with no questions it changes only the mode, and a first fetch that completes while the quiz mode is on stores the questions and starts at the first one, unanswered |
| Study.LateQuestionsAreNotShown | script.js:81-99 | a question fetch that completes after the user has switched to the flashcards stores the questions and shows none, because the mode is checked at completion (script.js:97) |
| Study.ModeSwitchesKeepCards | script.js:1129-1235 | the flashcard and theory switches change only the mode |
| Study.SubmittedAsWritten | script.js:1362-1428 | `submitAnswer` as written: with a choice and an unanswered question it sets `hasAnswered` and `currentAnswer`, then the throw at script.js:1428 ends it; `SubmittedAsWrittenNeverScores` and `CorrectAnswerIsNotCounted` state its consequences |
| Study.SubmittedAsWrittenNeverScores | script.js:1362-1489 | as written, submitting marks the question answered and never changes the counters |
| Study.CorrectAnswerIsNotCounted | script.js:1428 | a question answered with its correct choice is counted as correct by the intended version and not by the code as written |
| Study.SubmittedIntendedScores | script.js:1378-1385 | intended: a first submission scores exactly one answer, as correct precisely when the choice is `correctAnswer`; submitting again changes nothing |
| Study.SubmitWithoutChoiceDoesNothing | script.js:1370-1376 | without a selected choice nothing changes |
| Study.QuestionNavigationStops | script.js:1503-1514 | the quiz navigator stops at both ends and moves by one inside the range |
| Study.SkippedQuestionCounts | script.js:1517-1529 | skipping an answered question does nothing; otherwise exactly one skip is counted and a fresh question is shown |
| Study.SubmittedThenSkipped | script.js:1517-1518 | a submitted question can no longer be skipped |
| Study.StudyApp.constructor | script.js:2-35 | the declarations give the initial state, which satisfies the invariant |
| Study.StudyApp.LoadFlashcards | script.js:53-77 | the new state is `Loaded` of the old one and the fetch outcome: the cards are stored and the first shown, or the error message replaces the markup |
| Study.StudyApp.ShowCard | script.js:439-491 | the new state is `Shown` of the old one and the index, and the invariant holds |
| Study.StudyApp.ShowNoCardsMessage | script.js:807-824 | the no-cards message replaces the markup and nothing else changes |
| Study.StudyApp.RenderCard | script.js:456-489 | with intact markup the flip is reset, the card displayed and the explanation closed unless the card has one; otherwise nothing changes |
| Study.StudyApp.ApplyFilters | script.js:329-384 | the new state is `Refiltered` of the old one and the invariant holds |
| Study.StudyApp.SetActiveCategory | script.js:277-279 | the new state is the old one refiltered with the new category |
| Study.StudyApp.SetActiveDifficulty | script.js:286-288 | the new state is the old one refiltered with the new difficulty |
| Study.StudyApp.WindowSetDifficulty | script.js:989-994 | as `setActiveDifficulty`, with "all" standing for "todas" |
| Study.StudyApp.ToggleTag | script.js:295-301 | the new state is the old one refiltered with the tag toggled |
| Study.StudyApp.HandleSearch | script.js:305-307 | the new state is the old one refiltered with the lower-cased, trimmed term |
| Study.StudyApp.ClearSearch | script.js:315-320 | the new state is the old one refiltered with no search term |
| Study.StudyApp.HandleAction | script.js:411-436 | the new state is `ActionHandled` of the old one: clear-filters, a random card, the study mode, or nothing |
| Study.StudyApp.NextCard | script.js:493-497 | the new state is `NextCardState` of the old one |
| Study.StudyApp.PreviousCard | script.js:499-504 | the new state is `PreviousCardState` of the old one |
| Study.StudyApp.ShowRandomCard | script.js:506-510 | the new state is `RandomCardState` of the old one and the drawn position |
| Study.StudyApp.FlipCard | script.js:512-516 | only the flip changes |
| Study.StudyApp.ToggleStudyMode | script.js:519-532 | the mode flips and entering it zeroes the counters |
| Study.StudyApp.WindowToggleStudyMode | script.js:1096-1102 | only the mode flips |
| Study.StudyApp.AnswerCard | script.js:563-564 | only the counter of the outcome changes |
| Study.StudyApp.ToggleExplanation | script.js:1028-1032 | only the explanation's visibility flips |
| Study.StudyApp.ResetStats | script.js:1073-1081 | only the counters change, to zero |
| Study.StudyApp.LoadQuestions | script.js:81-99 | the questions (or none) are stored and in the quiz mode the first is shown; a failure changes nothing |
| Study.StudyApp.SwitchToFlashcards | script.js:1129-1130 | only the mode changes |
| Study.StudyApp.SwitchToQuestions | script.js:1156-1204 | the new state is `SwitchedToQuestions` of the old one: the current question re-shown, or, with no questions, only the mode set while the fetch is started (its completion is a later `LoadQuestions` call) |
| Study.StudyApp.SwitchToTheory | script.js:1210-1212 | only the mode changes |
| Study.StudyApp.ShowQuestion | script.js:1238-1252 | the new state is `QuestionShown` of the old one: clamped index, unanswered |
| Study.StudyApp.SubmitAnswer | script.js:1362-1485 | the new state is `SubmittedIntended` of the old one and the selected choice |
| Study.StudyApp.UpdateQuestionStats | script.js:1492-1497 | a correct answer increments the correct counter, any other the incorrect one |
| Study.StudyApp.PrevQuestion | script.js:1503-1507 | the new state is `PreviousQuestionState` of the old one |
| Study.StudyApp.NextQuestion | script.js:1510-1514 | the new state is `NextQuestionState` of the old one |
| Study.StudyApp.SkipQuestion | script.js:1517-1529 | the new state is `SkippedQuestion` of the old one and the drawn position |
| Study.StudyApp.RandomQuestion | script.js:1532-1539 | the new state is `RandomQuestionState` of the old one and the drawn position |
| Study.QuizSession | script.js:1378-1385 | usage example: driving the class through a quiz (switching to it, the fetch then completing with one question, answered with its correct choice) leaves the question answered and one correct answer counted |
| Deck.FacesOf | flashcards.js:52-57 | upright the front is the question (a placeholder when empty) and the back the answer or "Sem resposta"; reversed the answer is in front and the question on the back |
| Deck.ReverseSwapsFaces | flashcards.js:52-57 | reversing swaps the two faces exactly when the card has a question |
| Deck.FacesNeverBlank | flashcards.js:55-56 | neither face is ever blank |
| Deck.ExplanationFor | flashcards.js:71-86 | the explanation area is never blank |
| Deck.ExplanationChoice | flashcards.js:76-84 | the placeholder appears exactly for a card whose explanation is missing or empty; otherwise the explanation itself is shown |
| Deck.Shown | flashcards.js:49-69 | `showCard` leaves a deck whose view is that of the current card |
| Deck.ShownResetsFlip | flashcards.js:49-69 | `showCard` does nothing on an empty deck, and otherwise changes only the view and resets the flip |
| Deck.Loaded | flashcards.js:7-28 | loading leaves a valid deck |
| Deck.LoadFailureFallsBack | flashcards.js:13-26 | a failed load leaves exactly the fallback card, shown as card 1 of 1 with its explanation |
| Deck.PreviousPositionWraps | flashcards.js:118 | `(current - 1 + n) % n` is the study page's previous position |
| Deck.NextState | flashcards.js:112-115 | `nextCard` keeps the deck valid |
| Deck.PrevState | flashcards.js:117-120 | `prevCard` keeps the deck valid |
| Deck.DeckNavigationWraps | flashcards.js:112-120 | next and previous wrap around at both ends and undo each other |
| Deck.ReversedState | flashcards.js:122-125 | `toggleReverse` keeps the deck valid |
| Deck.TogglesUndo | flashcards.js:106-125 | flipping twice restores the deck; reversing twice restores the orientation and only re-shows the card |
| Deck.Swap | flashcards.js:130 | the swap keeps the length |
| Deck.ShuffleFrom | flashcards.js:128-131 | the shuffle loop keeps the length |
| Deck.SwapIsPermutation | flashcards.js:130 | a swap rearranges the cards |
| Deck.ShuffleFromIsPermutation | flashcards.js:128-131 | the loop from any position down to 1 rearranges the cards |
| Deck.ShuffledIsPermutation | flashcards.js:127-131 | the shuffle returns the same cards, each as often as before |
| Deck.IdentityDrawsKeepOrder | flashcards.js:128-131 | when every draw is its own position nothing moves |
| Deck.ShuffledState | flashcards.js:127-134 | `shuffleCards` leaves a valid deck |
| Deck.ShuffledStateRestarts | flashcards.js:127-134 | after shuffling the deck holds the same cards and shows the first one, unflipped |
| Deck.SimpleDeck.constructor | flashcards.js:1-5 | the declared initial state |
| Deck.SimpleDeck.LoadCards | flashcards.js:7-28 | the new state is `Loaded` of the old one: the parsed list in a fresh array or the fallback card, shown from 0 |
| Deck.SimpleDeck.ShowCard | flashcards.js:49-69 | the new state is `Shown` of the old one; the array is untouched |
| Deck.SimpleDeck.FlipCard | flashcards.js:106-110 | only the flip changes |
| Deck.SimpleDeck.NextCard | flashcards.js:112-115 | the new state is `NextState` of the old one |
| Deck.SimpleDeck.PrevCard | flashcards.js:117-120 | the new state is `PrevState` of the old one |
| Deck.SimpleDeck.ToggleReverse | flashcards.js:122-125 | the new state is `ReversedState` of the old one |
| Deck.SimpleDeck.ToggleExplanation | flashcards.js:88-104 | only the explanation's visibility flips |
| Deck.SimpleDeck.ShuffleCards | flashcards.js:127-134 | the array is permuted in place into `Shuffled` of its old contents with the given draws and the first card is shown |
| Deck.FallbackSession | flashcards.js:13-26 | usage example: after a failed load, reversing twice shows the fallback question in front of a one-card deck |
| Metadata.CategorizeCard | add_metadata.js:8-48 | the category is one of the five labels |
| Metadata.CategoryIsFirstMatch | add_metadata.js:18-47 | each category is chosen exactly when its keyword group occurs and no earlier group does; "geral" exactly when none does |
| Metadata.AnagramBeatsArrangement | add_metadata.js:18-31 | a text with both "anagrama" and "arranjo" is a permutation card |
| Metadata.QuestionKeywordDecides | add_metadata.js:9-24 | a question with a permutation keyword in any letter case makes a permutation card |
| Metadata.LowerPermutationWords | add_metadata.js:19-22 | the permutation keywords are already lower-case |
| Metadata.PermutationSurvivesMoreText | add_metadata.js:9-24 | more explanation text never takes a card out of the permutation category |
| Metadata.GetDifficulty | add_metadata.js:51-86 | the difficulty is one of the three labels |
| Metadata.DifficultyByPriority | add_metadata.js:61-85 | basic, intermediate and advanced rules by priority, both directions of each, basic by default |
| Metadata.FormulaCardsAreBasic | add_metadata.js:61-67 | a "formula" card is basic whatever its text holds |
| Metadata.NumbersMakeIntermediate | add_metadata.js:75 | two digits in a row make a card without a basic keyword intermediate |
| Metadata.LongIntermediateKeywordIsRedundant | add_metadata.js:73-74 | every text with "combinação com repetição" also has "repetição" |
| Metadata.GenerateTags | add_metadata.js:89-111 | the pushed tags, or ["geral"], as `TagsFor` defines them |
| Metadata.PushTypeRules | add_metadata.js:94-96 | the tags of the three type rules, in order |
| Metadata.PushFirstWordRules | add_metadata.js:99-103 | the type tags followed by those of the first five word rules |
| Metadata.PushLastWordRules | add_metadata.js:104-108 | the earlier tags followed by those of the last five word rules |
| Metadata.FiredTagsInRuleOrder | add_metadata.js:94-108 | the pushed tags are a subsequence of the rules' tags in rule order |
| Metadata.TagsForShape | add_metadata.js:110 | the result is never empty, has at most thirteen tags, and is ["geral"] exactly when no rule fires |
| Metadata.FiredTagsLength | add_metadata.js:94-108 | one tag per rule that fires, so at most thirteen, and none exactly when no rule fires |
| Metadata.FiredTagsCount | add_metadata.js:94-108 | no rule pushes "geral", and "fatorial" is pushed once per rule for it that fires |
| Metadata.TypeTagsLength | add_metadata.js:94-96 | one tag per type rule that fires |
| Metadata.FirstWordTagsLength | add_metadata.js:99-103 | one more tag per first word rule that fires |
| Metadata.LastWordTagsLength | add_metadata.js:104-108 | one more tag per last word rule that fires |
| Metadata.TypeTagsCount | add_metadata.js:94-96 | each tag occurs once per type rule that fires with it |
| Metadata.FirstWordTagsCount | add_metadata.js:99-103 | each tag occurs once more per first word rule that fires with it |
| Metadata.LastWordTagsCount | add_metadata.js:104-108 | each tag occurs once more per last word rule that fires with it |
| Metadata.TagsIgnoreExplanation | add_metadata.js:90 | the tags depend only on the type, the question and the answer |
| Metadata.WithoutRepetitionAlsoTagsRepetition | add_metadata.js:99-100 | a text with "sem repetição" gets both "sem-repeticao" and "com-repeticao" |
| Metadata.FactorialTagCount | add_metadata.js:105-106 | "fatorial" appears twice when the text has both "fatorial" and "!" |
| Metadata.ProcessCards | add_metadata.js:114-125 | card `i` gets id `i + 1`, the category, difficulty and tags that `categorizeCard`, `getDifficulty` and `generateTags` compute for input card `i`, and keeps its type, question, answer and explanation |
| Metadata.ProcessedCardsAreNumberedAndTagged | add_metadata.js:114-125 | the ids ascend; every card has a category and a difficulty from the labels and a non-empty tags array |
| Restructure.CountCards | restructure.js:18-24 | the loop computes the histograms of the cards' categories and difficulties |
| Restructure.CountsWritten | restructure.js:27-29 | every entry keeps its key and properties and its count becomes the stats entry of its key, 0 when missing |
| Restructure.WriteCounts | restructure.js:27-33 | the loop over the entry keys writes `CountsWritten` |
| Restructure.Structure.constructor | restructure.js:8-9 | the parsed structure file |
| Restructure.Structure.Restructure | restructure.js:12-33 | the cards move in, `totalCards` is their number, and each entry's count is written from the histograms |
| Restructure.CategoryStatsCountCards | restructure.js:22 | `categoryStats[c]` is the number of cards of category `c`, as the study page's counter has it, and is present exactly when some card has `c` |
| Restructure.DifficultyStatsCountCards | restructure.js:23 | `difficultyStats[d]` is the number of cards of difficulty `d`, and is present exactly when some card has `d` |
| Restructure.StatsSumToCardCount | restructure.js:21-24 | each set of counts adds up to the number of cards |
| Restructure.WrittenCountsSum | restructure.js:27-29 | when every card's category has an entry, the written counts add up to the number of cards |

## Left out

- I/O is left out: `fetch`, `fs.readFileSync` / `fs.writeFileSync`, `JSON.parse` / `JSON.stringify` and `console.log`. The parsed data and the fetch outcome are parameters.
- The DOM is left out: class toggles, styles, button states, `innerHTML` and the result and feedback markup. `Study.Display` records only which of the four contents the flashcard element holds.
- Also left out:
  - the keyboard handlers (`handleKeyboard`, the `keydown` listener of `flashcards.js`), which only dispatch to the modelled handlers;
  - the sidebar, mobile and resize handlers;
  - `updateSidebarActiveStates`, `updateProgressBar`, `updateCardInfo`, `getCategoryColor`, the stats panel;
  - the sorted order of the sidebar's tag buttons;
  - the quiz's markup and its debug output.
- The fetches are asynchronous and complete after any number of other handlers. Their completions are separate calls: `Study.StudyApp.LoadFlashcards`, `Study.StudyApp.LoadQuestions`, `Deck.SimpleDeck.LoadCards`. `Study.StudyApp.SwitchToQuestions` only starts the question fetch.
- `Math.random` is left out. The drawn positions are parameters, constrained to their ranges.
- `setTimeout` is left out. The delayed `nextCard` after `answerCard` is a separate call rather than part of `answerCard`. The style reset and the KaTeX re-rendering are not modelled.
- `Date.now`, the session's clock fields and the percentage display are not modelled.
- KaTeX rendering is not modelled.
- The `card.question` / `card.answer` alias properties are not modelled. Cards have only `q` and `a`, and an empty question or answer falls back to the same placeholder.
- `window.setCategory`, `window.prevCard`, `window.clearSearch` (script.js:1111, the same state change as `clearSearch`) and `window.performSearch` behave exactly like the handlers they call, so they have no members of their own. `window.shuffleCards` on the study page is `showRandomCard`.
- `window.nextCard` and `window.flipCard` have not been given members of their own:
  - their state changes are those of `nextCard` and `flipCard`;
  - `window.flipCard` also needs the flashcard element, which the model assumes present;
  - `window.toggleReverse` only logs.
- `Study.StudyApp.ShowCard`:
  - assumes the page's question and answer elements are those inside the flashcard element;
  - a missing flashcard or question element, and the "card not found" branch, cannot occur in the model;
  - the missing answer element is modelled by `faceMarkup`.
- `Study.StudyApp.LoadQuestions`: the error message a failed load writes in the quiz mode is markup only and is not modelled.
- `Deck.SimpleDeck.NextCard` and `Deck.SimpleDeck.PrevCard` require a non-empty deck. On an empty deck the source computes `% 0`, which is `NaN` in JavaScript.
- `Deck.SimpleDeck.LoadCards`: a parsed value that is not an array is not modelled.
- `Text.LowerChar` knows only the ASCII and Latin-1 capitals. Other Unicode case mappings are not modelled.
- Strings are sequences of characters, and the source's text is compared without Unicode normalisation.
- `Cards.Card`: a `tags` value that is present but is not an array is outside the model; `None` stands only for a missing (or falsy) `tags`. The tag filter (script.js:349) and the counters (script.js:742, 839) would treat a non-array value as absent, but the search pass spreads it (script.js:363): a string becomes its characters and any other value throws before `filteredCards` is assigned (script.js:372).
- `Study.StudyApp.LoadFlashcards`: a truthy `data.cards` that is not an array (script.js:60-61) has no `Response` value. The source would store it, then spread a string into characters or throw into the error path with `allCards` already replaced.
- `Study.StudyApp.LoadQuestions`: a truthy `data.questions` that is not an array (script.js:91-92) has no `Response` value, with the same consequences for `allQuestions`.
- `Restructure.Structure`: each entry's properties other than `count` are a plain string map.

## Notes on the code

These behaviours of the code are reproduced as written and do not change the model:

- **The no-cards message and the load error break later `showCard` calls.**
  - `showNoCardsMessage` (script.js:807-824) replaces the flashcard's content with markup that has no answer element. So does the load-failure path (script.js:72-76).
  - A later `showCard` stores the new index and then returns at script.js:460-463 without displaying the card.
  - The model keeps this as the field `faceMarkup`, assuming the page has no other answer element. `Study.NoCardsMessageStays` states the consequence.
- **The study page has two definitions of `toggleStudyMode`.** The one at script.js:1096 replaces the one at script.js:519, and it does not reset the session counters. The sidebar's "study-mode" action reaches the replacement, and `Study.StudyModeDefinitionsDiffer` states the difference.
- **A redundant intermediate keyword.** The keyword "combinação com repetição" (add_metadata.js:74) can never decide a difficulty, because "repetição" is checked in the same rule.
- **No "avancado" counter.** The difficulty counters (script.js:717-722) have no entry for "avancado".
- **The two pages read "cards.json" differently.** The study page takes the list from the parsed object's `cards` property (script.js:60). The deck page uses the parsed value itself as the list (flashcards.js:10). With the file the study page expects, the deck page gets an object rather than an array, which `Deck.SimpleDeck.LoadCards` does not model.
- **`generateTags` as helper methods.** `Metadata.GenerateTags` runs the thirteen rules in three helper methods, and each rule is one call of the helper `Metadata.Push`, in the source's order.

## Findings

| source | as written | input that shows it | evidently intended | confidence | as-written member | corrected member |
|---|---|---|---|---|---|---|
| script.js:1428 | `submitAnswer` reads `existingResultExplanation`, which is never declared, so it throws a ReferenceError once a choice is submitted; `updateQuestionStats(isCorrect)` at script.js:1485 is never reached and quiz answers are never counted | one question with `correctAnswer` 2, answered with choice 2: the correct counter stays 0 | the answer is scored: the correct counter goes up for the right choice, the incorrect one otherwise | not executed; assumes the page has no element with id `existingResultExplanation` (browsers expose id'd elements as `window` properties, which would make the name resolve), and the page's HTML is not part of this model | Study.CorrectAnswerIsNotCounted | Study.SubmittedIntendedScores |
