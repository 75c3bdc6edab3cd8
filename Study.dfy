/** The module-level state of the study page (`script.js`) and the handlers
    that change it: card navigation over the filtered list, the filters,
    the study-session counters and the quiz navigator.

    Each handler is a method of `StudyApp` proved against a transition
    function on the snapshot `AppState`; the properties the page relies on
    are lemmas about those functions. */
module Study {
  import opened Wrappers
  import opened Text
  import opened Sequences
  import opened Cards
  import opened Navigation
  import Filtering

  /** What the flashcard element shows. `PageMarkup` is the element as the
      page was loaded; `LoadError` and `NoCardsMessage` are the two messages
      written over it. */
  datatype Display = PageMarkup | LoadError | NoCardsMessage | ShowingCard(card: Card)

  /** The three answers of the study mode, named as `sessionStats` names its
      counters. */
  datatype Outcome = Correct | Incorrect | Skipped

  /** The counters of `sessionStats` (its clock fields are not modelled). */
  datatype SessionStats = SessionStats(correct: nat, incorrect: nat, skipped: nat)

  const ZeroStats: SessionStats := SessionStats(0, 0, 0)

  /** `currentMode`. */
  datatype Mode = FlashcardMode | QuestionMode | TheoryMode

  /** The outcome of fetching a JSON file: the request or the parse failed,
      or it produced an object whose list property may be missing. */
  datatype Response<T> = Failed | Received(payload: Option<T>)

  /** `sessionStats[result]++`. */
  function Record(s: SessionStats, o: Outcome): (r: SessionStats)
    ensures r.correct == s.correct + (if o == Correct then 1 else 0)
    ensures r.incorrect == s.incorrect + (if o == Incorrect then 1 else 0)
    ensures r.skipped == s.skipped + (if o == Skipped then 1 else 0)
  {
    match o
    case Correct => s.(correct := s.correct + 1)
    case Incorrect => s.(incorrect := s.incorrect + 1)
    case Skipped => s.(skipped := s.skipped + 1)
  }

  function Answers(s: SessionStats): nat {
    s.correct + s.incorrect + s.skipped
  }

  /** Recording an outcome counts exactly one more answer. */
  lemma RecordCountsOneAnswer(s: SessionStats, o: Outcome)
    ensures Answers(Record(s, o)) == Answers(s) + 1
    ensures Record(s, o) != s
  {
  }

  /** The state `script.js` keeps in its module variables and `appState`.
      `currentData` always holds the same list as `filteredCards`, and
      `filteredQuestions` the same list as `allQuestions`, so each pair is one
      field. `faceMarkup` says whether the flashcard element still holds the
      question and answer elements `showCard` writes into. */
  datatype AppState = AppState(
    allCards: seq<Card>,
    filteredCards: seq<Card>,
    currentCardIndex: int,
    isFlipped: bool,
    studyMode: bool,
    filter: Filtering.FilterState,
    showExplanation: bool,
    stats: SessionStats,
    display: Display,
    faceMarkup: bool,
    questions: seq<Question>,
    currentQuestionIndex: int,
    currentAnswer: Option<int>,
    hasAnswered: bool,
    mode: Mode)

  /** The state when the page has loaded and before any data has arrived. */
  const Start: AppState := AppState(
    [], [], 0, false, false, Filtering.Cleared, false, ZeroStats, PageMarkup, true,
    [], 0, None, false, FlashcardMode)

  /** What `showCard` relies on: the filtered list is drawn from all cards,
      indices are not negative, an answered question has an answer and a
      card is only displayed while the flashcard markup is intact. */
  predicate Coherent(s: AppState) {
    && IsSubsequence(s.filteredCards, s.allCards)
    && 0 <= s.currentCardIndex
    && 0 <= s.currentQuestionIndex
    && (s.hasAnswered <==> s.currentAnswer.Some?)
    && (s.display.ShowingCard? ==> s.faceMarkup)
  }

  /** The invariant between handlers: in addition, the current index is a
      position of the filtered list when that is not empty, and a displayed
      card is the card at the current index. */
  predicate ValidState(s: AppState) {
    && Coherent(s)
    && (|s.filteredCards| > 0 ==> s.currentCardIndex < |s.filteredCards|)
    && (s.display.ShowingCard? ==>
          |s.filteredCards| > 0 && s.display.card == s.filteredCards[s.currentCardIndex])
  }

  lemma StartIsValid()
    ensures ValidState(Start)
  {
  }

  /** `card.explanation && card.explanation.trim()`: the explanation button is
      offered for the card. */
  predicate HasVisibleExplanation(c: Card) {
    c.explanation.Some? && Trim(c.explanation.value) != ""
  }

  // ---------------------------------------------------------------------
  // Cards

  /** `showCard(index)`: on an empty list the no-cards message replaces the
      flashcard markup. Otherwise the index is wrapped into range and stored;
      when the markup is intact the flip is reset, the card is displayed and
      an open explanation is closed unless the card has one. */
  function Shown(s: AppState, index: int): AppState {
    var n := |s.filteredCards|;
    if n == 0 then
      NoCardsShown(s)
    else
      Rendered(s.(currentCardIndex := ShowIndex(index, n)))
  }

  /** `showNoCardsMessage`: the flashcard's markup is replaced by the
      no-cards message, which has a question element but no answer element. */
  function NoCardsShown(s: AppState): AppState {
    s.(display := NoCardsMessage, faceMarkup := false)
  }

  /** The rest of `showCard` once the index is in range: with the markup
      intact the flip is reset, the card is displayed and an open
      explanation is closed unless the card has one. */
  function Rendered(s: AppState): AppState
    requires 0 <= s.currentCardIndex < |s.filteredCards|
  {
    if !s.faceMarkup then s
    else
      var c := s.filteredCards[s.currentCardIndex];
      s.(isFlipped := false, display := ShowingCard(c),
         showExplanation := s.showExplanation && HasVisibleExplanation(c))
  }

  /** `showCard` establishes the invariant from the weaker one. */
  lemma ShownIsValid(s: AppState, index: int)
    requires Coherent(s)
    ensures ValidState(Shown(s, index))
  {
  }

  /** With cards to show and the markup intact, `showCard` displays the card
      at the wrapped index with its question side up, and touches neither
      the lists nor the filters nor the counters. */
  lemma ShownDisplaysCard(s: AppState, index: int)
    requires |s.filteredCards| > 0 && s.faceMarkup
    ensures var r := Shown(s, index); var i := ShowIndex(index, |s.filteredCards|);
      && r.currentCardIndex == i
      && !r.isFlipped
      && r.display == ShowingCard(s.filteredCards[i])
      && (r.showExplanation <==> s.showExplanation && HasVisibleExplanation(s.filteredCards[i]))
      && r.filteredCards == s.filteredCards && r.allCards == s.allCards
      && r.filter == s.filter && r.stats == s.stats
  {
  }

  /** Once the no-cards message has replaced the markup, `showCard` only
      moves the index: the message stays and the flip is left as it is. */
  lemma NoCardsMessageStays(s: AppState, index: int)
    requires s.display == NoCardsMessage && !s.faceMarkup
    ensures Shown(s, index).display == NoCardsMessage
    ensures Shown(s, index).isFlipped == s.isFlipped
    ensures |s.filteredCards| > 0 ==> Shown(s, index).currentCardIndex == ShowIndex(index, |s.filteredCards|)
  {
  }

  /** `applyFilters`: the filtered list and index 0 are written back, then
      the first card is shown, or the no-cards message when nothing is left. */
  function Refiltered(s: AppState): AppState {
    Shown(s.(filteredCards := Filtering.ApplyFilters(s.allCards, s.filter), currentCardIndex := 0), 0)
  }

  /** After `applyFilters` the filtered list is exactly the matching cards in
      their order, the index is 0, the invariant holds, and an empty result
      shows the no-cards message instead of a card. */
  lemma RefilteredResult(s: AppState)
    requires Coherent(s)
    ensures var r := Refiltered(s);
      && r.filteredCards == Select(s.allCards, (c: Card) => Filtering.Matches(s.filter, c))
      && IsSubsequence(r.filteredCards, s.allCards)
      && r.currentCardIndex == 0
      && r.filter == s.filter && r.allCards == s.allCards
      && (r.filteredCards == [] ==> r.display == NoCardsMessage && !r.faceMarkup)
      && ValidState(r)
  {
    Filtering.ApplyFiltersIsOneFilter(s.allCards, s.filter);
    Filtering.ApplyFiltersIsSubsequence(s.allCards, s.filter);
    ShownIsValid(s.(filteredCards := Filtering.ApplyFilters(s.allCards, s.filter), currentCardIndex := 0), 0);
  }

  /** `loadFlashcards`: on success all cards (or none, when the file has no
      `cards` list) become both the full and the filtered list and the first
      card is shown; on failure an error message replaces the markup and the
      lists stay as they were. */
  function Loaded(s: AppState, response: Response<seq<Card>>): AppState {
    match response
    case Failed => s.(display := LoadError, faceMarkup := false)
    case Received(payload) =>
      var cards := payload.GetOr([]);
      Shown(s.(allCards := cards, filteredCards := cards), 0)
  }

  /** A successful load shows every loaded card, from the first one, whatever
      the active filters. */
  lemma LoadedShowsAllCards(s: AppState, cards: seq<Card>)
    requires Coherent(s)
    ensures var r := Loaded(s, Received(Some(cards)));
      && r.allCards == cards && r.filteredCards == cards
      && (cards != [] ==> r.currentCardIndex == 0)
      && ValidState(r)
  {
    SubsequenceReflexive(cards);
    ShownIsValid(s.(allCards := cards, filteredCards := cards), 0);
  }

  /** A load whose file has no `cards` list behaves like an empty list. */
  lemma LoadedWithoutList(s: AppState)
    ensures Loaded(s, Received(None)) == Loaded(s, Received(Some([])))
    ensures Loaded(s, Received(None)).display == NoCardsMessage
  {
  }

  /** `setActiveCategory`. */
  function WithCategory(s: AppState, category: string): AppState {
    Refiltered(s.(filter := s.filter.(category := category)))
  }

  /** `setActiveDifficulty`. */
  function WithDifficulty(s: AppState, difficulty: string): AppState {
    Refiltered(s.(filter := s.filter.(difficulty := difficulty)))
  }

  /** `toggleTag`. */
  function WithTagToggled(s: AppState, tag: string): AppState {
    Refiltered(s.(filter := s.filter.(tags := Filtering.Toggled(s.filter.tags, tag))))
  }

  /** `handleSearch`. */
  function Searched(s: AppState, value: string): AppState {
    Refiltered(s.(filter := s.filter.(search := Filtering.NormalizeSearch(value))))
  }

  /** `clearSearch`. */
  function SearchCleared(s: AppState): AppState {
    Refiltered(s.(filter := s.filter.(search := "")))
  }

  /** `handleAction("clear-filters")`. */
  function FiltersCleared(s: AppState): AppState {
    Refiltered(s.(filter := Filtering.Cleared))
  }

  /** Selecting a category shows exactly the cards of that category that
      pass the other filters, and selecting "todas" lifts the category
      restriction. */
  lemma WithCategoryMembership(s: AppState, category: string, c: Card)
    ensures var f := s.filter.(category := category);
      c in WithCategory(s, category).filteredCards <==>
        c in s.allCards && (category == Filtering.Any || c.category == category) &&
        Filtering.DifficultyPasses(f, c) && Filtering.TagsPass(f, c) && Filtering.SearchPasses(f, c)
  {
    Filtering.ApplyFiltersMembership(s.allCards, s.filter.(category := category), c);
  }

  /** Clearing the filters shows every card again, from the first one. */
  lemma FiltersClearedShowsAll(s: AppState)
    ensures FiltersCleared(s).filteredCards == s.allCards
    ensures FiltersCleared(s).filter == Filtering.Cleared
    ensures FiltersCleared(s).currentCardIndex == 0
  {
    Filtering.ClearedFilterKeepsAll(s.allCards);
  }

  /** `applyFilters` keeps the full list and the filter it applied. */
  lemma RefilteredKeeps(s: AppState)
    ensures Refiltered(s).allCards == s.allCards
    ensures Refiltered(s).filter == s.filter
    ensures Refiltered(s).filteredCards == Filtering.ApplyFilters(s.allCards, s.filter)
  {
  }

  /** Toggling the same tag twice restores the filter and the list it
      selects. */
  lemma TagToggledTwice(s: AppState, tag: string)
    ensures WithTagToggled(WithTagToggled(s, tag), tag).filter == s.filter
    ensures WithTagToggled(WithTagToggled(s, tag), tag).filteredCards
         == Filtering.ApplyFilters(s.allCards, s.filter)
  {
    var once := s.(filter := s.filter.(tags := Filtering.Toggled(s.filter.tags, tag)));
    RefilteredKeeps(once);
    var t := Refiltered(once);
    var twice := t.(filter := t.filter.(tags := Filtering.Toggled(t.filter.tags, tag)));
    Filtering.ToggleTwiceRestores(s.filter.tags, tag);
    assert twice.filter == s.filter;
    RefilteredKeeps(twice);
  }

  /** Clearing the search drops the search restriction and nothing else. */
  lemma SearchClearedKeepsOtherFilters(s: AppState, value: string)
    ensures SearchCleared(Searched(s, value)).filter == s.filter.(search := "")
    ensures SearchCleared(Searched(s, value)).filteredCards
         == Filtering.ApplyFilters(s.allCards, s.filter.(search := ""))
  {
    var searched := s.(filter := s.filter.(search := Filtering.NormalizeSearch(value)));
    RefilteredKeeps(searched);
    var r := Refiltered(searched);
    RefilteredKeeps(r.(filter := r.filter.(search := "")));
  }

  /** `nextCard`: nothing on an empty list, otherwise the next card with
      wrap-around from the last to the first. */
  function NextCardState(s: AppState): (r: AppState)
    requires ValidState(s)
    ensures ValidState(r)
  {
    var n := |s.filteredCards|;
    if n == 0 then s else Shown(s, Next(s.currentCardIndex, n))
  }

  /** `previousCard`: nothing on an empty list, otherwise the previous card
      with wrap-around from the first to the last. */
  function PreviousCardState(s: AppState): (r: AppState)
    requires ValidState(s)
    ensures ValidState(r)
  {
    var n := |s.filteredCards|;
    if n == 0 then s else Shown(s, Previous(s.currentCardIndex, n))
  }

  /** `showRandomCard`, with the random position `r` drawn by the caller. */
  function RandomCardState(s: AppState, r: nat): (t: AppState)
    requires ValidState(s)
    requires |s.filteredCards| > 0 ==> r < |s.filteredCards|
    ensures ValidState(t)
  {
    if |s.filteredCards| == 0 then s else Shown(s, r)
  }

  /** The card buttons keep the index a position of the list, wrap at both
      ends, and do nothing on an empty list. */
  lemma CardNavigationWraps(s: AppState)
    requires ValidState(s)
    ensures |s.filteredCards| == 0 ==> NextCardState(s) == s && PreviousCardState(s) == s
    ensures |s.filteredCards| > 0 ==>
      var n := |s.filteredCards|; var i := s.currentCardIndex;
      && NextCardState(s).currentCardIndex == (if i == n - 1 then 0 else i + 1)
      && PreviousCardState(s).currentCardIndex == (if i == 0 then n - 1 else i - 1)
      && NextCardState(s).filteredCards == s.filteredCards
      && PreviousCardState(s).filteredCards == s.filteredCards
  {
  }

  /** Going forward then back returns to the same card. */
  lemma NextThenPrevious(s: AppState)
    requires ValidState(s)
    ensures PreviousCardState(NextCardState(s)).currentCardIndex == s.currentCardIndex
  {
    if |s.filteredCards| > 0 {
      NextPreviousInverse(s.currentCardIndex, |s.filteredCards|);
    }
  }

  /** `nextCard` pressed `k` times. */
  function NextCardTimes(s: AppState, k: nat): (r: AppState)
    requires ValidState(s)
    ensures ValidState(r)
    decreases k
  {
    if k == 0 then s else NextCardState(NextCardTimes(s, k - 1))
  }

  lemma {:induction false} NextCardTimesAdvances(s: AppState, k: nat)
    requires ValidState(s) && |s.filteredCards| > 0
    ensures NextCardTimes(s, k).filteredCards == s.filteredCards
    ensures NextCardTimes(s, k).currentCardIndex == Advance(s.currentCardIndex, |s.filteredCards|, k)
    decreases k
  {
    if k > 0 {
      NextCardTimesAdvances(s, k - 1);
    }
  }

  /** Pressing `nextCard` once per card comes back to the starting card. */
  lemma NextCardFullCycle(s: AppState)
    requires ValidState(s) && |s.filteredCards| > 0
    ensures NextCardTimes(s, |s.filteredCards|).currentCardIndex == s.currentCardIndex
  {
    NextCardTimesAdvances(s, |s.filteredCards|);
    FullCycleForward(s.currentCardIndex, |s.filteredCards|);
  }

  /** `flipCard`. */
  function Flipped(s: AppState): AppState {
    s.(isFlipped := !s.isFlipped)
  }

  /** Flipping changes the side shown, and flipping twice restores it. */
  lemma FlippedTwice(s: AppState)
    ensures Flipped(s).isFlipped != s.isFlipped
    ensures Flipped(Flipped(s)) == s
  {
  }

  /** `toggleStudyMode` as declared at its own line: entering the study mode
      starts a new session with zeroed counters. */
  function StudyModeToggled(s: AppState): AppState {
    s.(studyMode := !s.studyMode, stats := if !s.studyMode then ZeroStats else s.stats)
  }

  /** `window.toggleStudyMode`, the definition the page's buttons reach: it
      only flips the mode. */
  function StudyModeToggledByWindow(s: AppState): AppState {
    s.(studyMode := !s.studyMode)
  }

  /** The two definitions agree on the mode; only the declared one resets the
      counters, and only when the mode is switched on. */
  lemma StudyModeDefinitionsDiffer(s: AppState)
    ensures StudyModeToggled(s).studyMode == StudyModeToggledByWindow(s).studyMode == !s.studyMode
    ensures StudyModeToggledByWindow(s).stats == s.stats
    ensures StudyModeToggled(s).stats == (if s.studyMode then s.stats else ZeroStats)
  {
  }

  /** `answerCard(result)`; the delayed `nextCard` is a separate call. */
  function AnsweredCard(s: AppState, o: Outcome): AppState {
    s.(stats := Record(s.stats, o))
  }

  /** Answering a card increments exactly the counter named by the outcome
      and changes nothing else. */
  lemma AnsweredCardCounts(s: AppState, o: Outcome)
    ensures var r := AnsweredCard(s, o);
      && r.stats.correct == s.stats.correct + (if o == Correct then 1 else 0)
      && r.stats.incorrect == s.stats.incorrect + (if o == Incorrect then 1 else 0)
      && r.stats.skipped == s.stats.skipped + (if o == Skipped then 1 else 0)
      && r.(stats := s.stats) == s
  {
  }

  /** `handleAction`: the three sidebar actions; "study-mode" reaches
      `window.toggleStudyMode`, and any other action does nothing. */
  function ActionHandled(s: AppState, action: string, r: nat): (t: AppState)
    requires ValidState(s)
    requires action == "random-card" && |s.filteredCards| > 0 ==> r < |s.filteredCards|
    ensures ValidState(t)
  {
    if action == "clear-filters" then
      RefilteredResult(s.(filter := Filtering.Cleared));
      FiltersCleared(s)
    else if action == "random-card" then RandomCardState(s, r)
    else if action == "study-mode" then StudyModeToggledByWindow(s)
    else s
  }

  // ---------------------------------------------------------------------
  // Questions

  /** `showQuestion(index)`: nothing without questions; otherwise the index
      is clamped into range and the question starts unanswered. */
  function QuestionShown(s: AppState, index: int): AppState {
    var n := |s.questions|;
    if n == 0 then s
    else s.(currentQuestionIndex := ClampIndex(index, n), hasAnswered := false, currentAnswer := None)
  }

  /** `showQuestion` clamps instead of wrapping, and a shown question is
      unanswered. */
  lemma QuestionShownClamps(s: AppState, index: int)
    requires |s.questions| > 0
    ensures var r := QuestionShown(s, index); var n := |s.questions|;
      && 0 <= r.currentQuestionIndex < n
      && r.currentQuestionIndex == (if index < 0 then 0 else if index >= n then n - 1 else index)
      && !r.hasAnswered && r.currentAnswer == None
  {
  }

  /** `loadQuestions`: the questions (or none) are stored and, in the quiz
      mode, the first one is shown; a failure changes nothing. */
  function QuestionsLoaded(s: AppState, response: Response<seq<Question>>): AppState {
    match response
    case Failed => s
    case Received(payload) =>
      var t := s.(questions := payload.GetOr([]));
      if s.mode == QuestionMode then QuestionShown(t, 0) else t
  }

  /** `switchToFlashcards`. */
  function SwitchedToFlashcards(s: AppState): AppState {
    s.(mode := FlashcardMode)
  }

  /** `switchToTheory`. */
  function SwitchedToTheory(s: AppState): AppState {
    s.(mode := TheoryMode)
  }

  /** `switchToQuestions`: shows the current question again; with no
      questions it only starts `loadQuestions`, whose fetch completes later
      as a separate `QuestionsLoaded` step. */
  function SwitchedToQuestions(s: AppState): AppState {
    var t := s.(mode := QuestionMode);
    if |t.questions| > 0 then QuestionShown(t, t.currentQuestionIndex) else t
  }

  /** Entering the quiz mode with questions at hand keeps the question at
      the current index (clamped) and starts it unanswered; with none it
      changes only the mode, and when the first fetch then completes while
      the quiz mode is still on, the first question is shown unanswered. */
  lemma SwitchedToQuestionsStarts(s: AppState, response: Response<seq<Question>>)
    requires 0 <= s.currentQuestionIndex
    ensures var r := SwitchedToQuestions(s);
      && r.mode == QuestionMode
      && (|s.questions| > 0 ==>
            r.currentQuestionIndex == ClampIndex(s.currentQuestionIndex, |s.questions|) && !r.hasAnswered)
      && (|s.questions| == 0 ==> r == s.(mode := QuestionMode))
    ensures var r := QuestionsLoaded(SwitchedToQuestions(s), response);
      |s.questions| == 0 && response.Received? && response.payload.GetOr([]) != [] ==>
        r.questions == response.payload.GetOr([]) && r.currentQuestionIndex == 0 && !r.hasAnswered
  {
  }

  /** A fetch that completes after the user has left the quiz mode stores
      the questions but shows none: the mode check happens at completion. */
  lemma LateQuestionsAreNotShown(s: AppState, payload: Option<seq<Question>>)
    requires |s.questions| == 0
    ensures var r := QuestionsLoaded(SwitchedToFlashcards(SwitchedToQuestions(s)), Received(payload));
      r == s.(mode := FlashcardMode, questions := payload.GetOr([]))
  {
  }

  /** The three mode switches only change the mode. */
  lemma ModeSwitchesKeepCards(s: AppState)
    ensures SwitchedToFlashcards(s) == s.(mode := FlashcardMode)
    ensures SwitchedToTheory(SwitchedToFlashcards(s)) == s.(mode := TheoryMode)
  {
  }

  /** `submitAnswer` as written: once a choice is selected the question is
      marked answered and the choice recorded, and then the reference to the
      undeclared `existingResultExplanation` throws, so the counters are
      never updated. */
  function SubmittedAsWritten(s: AppState, selected: Option<int>): AppState {
    if s.hasAnswered || selected.None? then s
    else s.(hasAnswered := true, currentAnswer := selected)
  }

  /** `updateQuestionStats(isCorrect)`. */
  function QuestionScored(s: AppState, isCorrect: bool): AppState {
    s.(stats := Record(s.stats, if isCorrect then Correct else Incorrect))
  }

  /** `submitAnswer` as its last statement intends: the answer is scored
      against the question's `correctAnswer`. Without a question at the
      current index the lookup of `correctAnswer` throws before scoring. */
  function SubmittedIntended(s: AppState, selected: Option<int>): AppState {
    if s.hasAnswered || selected.None? then s
    else
      var t := s.(hasAnswered := true, currentAnswer := selected);
      if 0 <= s.currentQuestionIndex < |s.questions| then
        QuestionScored(t, selected.value == s.questions[s.currentQuestionIndex].correctAnswer)
      else t
  }

  /** As written, submitting marks the question answered but never changes
      the counters. */
  lemma SubmittedAsWrittenNeverScores(s: AppState, selected: Option<int>)
    ensures SubmittedAsWritten(s, selected).stats == s.stats
    ensures selected.Some? ==> SubmittedAsWritten(s, selected).hasAnswered
  {
  }

  /** A concrete counterexample: one question whose correct choice is 2,
      answered with 2, is not counted as correct. */
  lemma CorrectAnswerIsNotCounted()
    ensures var q := Question("ENEM", 2020, "basico", "Quantos anagramas tem AMOR?", ["4", "12", "24"], 2, None);
      var s := QuestionShown(Start.(questions := [q], mode := QuestionMode), 0);
      && SubmittedAsWritten(s, Some(2)).stats.correct == 0
      && SubmittedIntended(s, Some(2)).stats.correct == 1
  {
  }

  /** Intended: a first submission with a selected choice scores exactly one
      answer, as correct precisely when the choice is the question's
      `correctAnswer`; later submissions change nothing. */
  lemma SubmittedIntendedScores(s: AppState, choice: int)
    requires !s.hasAnswered && 0 <= s.currentQuestionIndex < |s.questions|
    ensures var r := SubmittedIntended(s, Some(choice));
      var right := choice == s.questions[s.currentQuestionIndex].correctAnswer;
      && r.hasAnswered && r.currentAnswer == Some(choice)
      && r.stats.correct == s.stats.correct + (if right then 1 else 0)
      && r.stats.incorrect == s.stats.incorrect + (if right then 0 else 1)
      && r.stats.skipped == s.stats.skipped
      && SubmittedIntended(r, Some(choice)) == r
  {
  }

  /** Both versions accept no submission without a selected choice. */
  lemma SubmitWithoutChoiceDoesNothing(s: AppState)
    ensures SubmittedAsWritten(s, None) == s && SubmittedIntended(s, None) == s
  {
  }

  /** `prevQuestion`. */
  function PreviousQuestionState(s: AppState): AppState {
    if s.currentQuestionIndex > 0 then QuestionShown(s, s.currentQuestionIndex - 1) else s
  }

  /** `nextQuestion`. */
  function NextQuestionState(s: AppState): AppState {
    if s.currentQuestionIndex < |s.questions| - 1 then QuestionShown(s, s.currentQuestionIndex + 1) else s
  }

  /** The quiz navigator stops at both ends instead of wrapping, and moves
      by one question inside the range. */
  lemma QuestionNavigationStops(s: AppState)
    requires 0 <= s.currentQuestionIndex < |s.questions|
    ensures s.currentQuestionIndex == 0 ==> PreviousQuestionState(s) == s
    ensures s.currentQuestionIndex == |s.questions| - 1 ==> NextQuestionState(s) == s
    ensures s.currentQuestionIndex > 0 ==>
      PreviousQuestionState(s).currentQuestionIndex == s.currentQuestionIndex - 1
    ensures s.currentQuestionIndex < |s.questions| - 1 ==>
      NextQuestionState(s).currentQuestionIndex == s.currentQuestionIndex + 1
  {
  }

  /** `randomQuestion`, with the random position `r` drawn by the caller. */
  function RandomQuestionState(s: AppState, r: nat): AppState
    requires |s.questions| > 0 ==> r < |s.questions|
  {
    if |s.questions| > 0 then QuestionShown(s, r) else s
  }

  /** `skipQuestion`: nothing once answered; otherwise one more skip is
      counted and the next question (or, from the last one, a random one)
      is shown. */
  function SkippedQuestion(s: AppState, r: nat): AppState
    requires |s.questions| > 0 ==> r < |s.questions|
  {
    if s.hasAnswered then s
    else
      var t := s.(stats := Record(s.stats, Skipped));
      if t.currentQuestionIndex < |t.questions| - 1 then NextQuestionState(t) else RandomQuestionState(t, r)
  }

  /** Skipping an answered question does nothing; skipping an unanswered one
      counts exactly one skip and leaves a fresh question. */
  lemma SkippedQuestionCounts(s: AppState, r: nat)
    requires |s.questions| > 0 ==> r < |s.questions|
    ensures s.hasAnswered ==> SkippedQuestion(s, r) == s
    ensures !s.hasAnswered ==>
      var t := SkippedQuestion(s, r);
      && t.stats == s.stats.(skipped := s.stats.skipped + 1)
      && (|s.questions| > 0 ==> !t.hasAnswered)
  {
  }

  /** Once a question has been submitted it can no longer be skipped until
      another question is shown. */
  lemma SubmittedThenSkipped(s: AppState, choice: int, r: nat)
    requires !s.hasAnswered && (|s.questions| > 0 ==> r < |s.questions|)
    ensures SkippedQuestion(SubmittedAsWritten(s, Some(choice)), r) == SubmittedAsWritten(s, Some(choice))
    ensures SkippedQuestion(SubmittedIntended(s, Some(choice)), r) == SubmittedIntended(s, Some(choice))
  {
  }

  /** `window.toggleExplanation`. */
  function ExplanationToggled(s: AppState): AppState {
    s.(showExplanation := !s.showExplanation)
  }

  // ---------------------------------------------------------------------
  // The page's module state

  class StudyApp {
    var allCards: seq<Card>
    var filteredCards: seq<Card>
    var currentCardIndex: int
    var isFlipped: bool
    var studyMode: bool
    var filter: Filtering.FilterState
    var showExplanation: bool
    var stats: SessionStats
    var display: Display
    var faceMarkup: bool
    var questions: seq<Question>
    var currentQuestionIndex: int
    var currentAnswer: Option<int>
    var hasAnswered: bool
    var mode: Mode

    /** The current values of the module variables. */
    function State(): AppState
      reads this
    {
      AppState(allCards, filteredCards, currentCardIndex, isFlipped, studyMode, filter,
               showExplanation, stats, display, faceMarkup, questions, currentQuestionIndex,
               currentAnswer, hasAnswered, mode)
    }

    predicate Valid()
      reads this
    {
      ValidState(State())
    }

    /** The declarations at the top of the script. */
    constructor ()
      ensures State() == Start
      ensures Valid()
    {
      allCards := [];
      filteredCards := [];
      currentCardIndex := 0;
      isFlipped := false;
      studyMode := false;
      filter := Filtering.Cleared;
      showExplanation := false;
      stats := ZeroStats;
      display := PageMarkup;
      faceMarkup := true;
      questions := [];
      currentQuestionIndex := 0;
      currentAnswer := None;
      hasAnswered := false;
      mode := FlashcardMode;
    }

    method LoadFlashcards(response: Response<seq<Card>>)
      requires Valid()
      modifies this
      ensures State() == Loaded(old(State()), response)
      ensures Valid()
    {
      match response
      case Failed =>
        display := LoadError;
        faceMarkup := false;
      case Received(payload) =>
        allCards := payload.GetOr([]);
        filteredCards := allCards;
        SubsequenceReflexive(allCards);
        ShowCard(0);
    }

    method ShowCard(index: int)
      requires Coherent(State())
      modifies this
      ensures State() == Shown(old(State()), index)
      ensures Valid()
    {
      ghost var before := State();
      ShownIsValid(before, index);
      if |filteredCards| == 0 {
        ShowNoCardsMessage();
      } else {
        currentCardIndex := ShowIndex(index, |filteredCards|);
        RenderCard();
      }
      assert State() == Shown(before, index);
      assert ValidState(State());
    }

    method ShowNoCardsMessage()
      modifies this
      ensures State() == NoCardsShown(old(State()))
    {
      display := NoCardsMessage;
      faceMarkup := false;
    }

    /** The part of `showCard` after the index is stored. */
    method RenderCard()
      requires 0 <= currentCardIndex < |filteredCards|
      modifies this
      ensures State() == Rendered(old(State()))
    {
      if !faceMarkup {
        return;
      }
      isFlipped := false;
      var card := filteredCards[currentCardIndex];
      display := ShowingCard(card);
      if !HasVisibleExplanation(card) {
        showExplanation := false;
      }
    }

    method ApplyFilters()
      requires Valid()
      modifies this
      ensures State() == Refiltered(old(State()))
      ensures Valid()
    {
      ghost var before := State();
      RefilteredResult(before);
      filteredCards := Filtering.ApplyFilters(allCards, filter);
      currentCardIndex := 0;
      Filtering.ApplyFiltersIsSubsequence(allCards, filter);
      if |filteredCards| > 0 {
        ShowCard(currentCardIndex);
      } else {
        ShowNoCardsMessage();
      }
      assert State() == Refiltered(before);
    }

    method SetActiveCategory(category: string)
      requires Valid()
      modifies this
      ensures State() == WithCategory(old(State()), category)
      ensures Valid()
    {
      filter := filter.(category := category);
      ApplyFilters();
    }

    method SetActiveDifficulty(difficulty: string)
      requires Valid()
      modifies this
      ensures State() == WithDifficulty(old(State()), difficulty)
      ensures Valid()
    {
      filter := filter.(difficulty := difficulty);
      ApplyFilters();
    }

    /** `window.setDifficulty`, which the page's buttons call: "all" stands
        for "todas". */
    method WindowSetDifficulty(difficulty: string)
      requires Valid()
      modifies this
      ensures State() == WithDifficulty(old(State()), if difficulty == "all" then Filtering.Any else difficulty)
      ensures Valid()
    {
      var d := difficulty;
      if d == "all" {
        d := "todas";
      }
      SetActiveDifficulty(d);
    }

    method ToggleTag(tag: string)
      requires Valid()
      modifies this
      ensures State() == WithTagToggled(old(State()), tag)
      ensures Valid()
    {
      if tag in filter.tags {
        filter := filter.(tags := filter.tags - {tag});
      } else {
        filter := filter.(tags := filter.tags + {tag});
      }
      ApplyFilters();
    }

    method HandleSearch(value: string)
      requires Valid()
      modifies this
      ensures State() == Searched(old(State()), value)
      ensures Valid()
    {
      filter := filter.(search := Trim(Lower(value)));
      ApplyFilters();
    }

    method ClearSearch()
      requires Valid()
      modifies this
      ensures State() == SearchCleared(old(State()))
      ensures Valid()
    {
      filter := filter.(search := "");
      ApplyFilters();
    }

    method HandleAction(action: string, r: nat)
      requires Valid()
      requires action == "random-card" && |filteredCards| > 0 ==> r < |filteredCards|
      modifies this
      ensures State() == ActionHandled(old(State()), action, r)
      ensures Valid()
    {
      if action == "clear-filters" {
        filter := Filtering.Cleared;
        ApplyFilters();
      } else if action == "random-card" {
        ShowRandomCard(r);
      } else if action == "study-mode" {
        WindowToggleStudyMode();
      }
    }

    method NextCard()
      requires Valid()
      modifies this
      ensures State() == NextCardState(old(State()))
      ensures Valid()
    {
      if |filteredCards| == 0 {
        return;
      }
      currentCardIndex := (currentCardIndex + 1) % |filteredCards|;
      ShowCard(currentCardIndex);
    }

    method PreviousCard()
      requires Valid()
      modifies this
      ensures State() == PreviousCardState(old(State()))
      ensures Valid()
    {
      if |filteredCards| == 0 {
        return;
      }
      currentCardIndex := if currentCardIndex > 0 then currentCardIndex - 1 else |filteredCards| - 1;
      ShowCard(currentCardIndex);
    }

    method ShowRandomCard(r: nat)
      requires Valid()
      requires |filteredCards| > 0 ==> r < |filteredCards|
      modifies this
      ensures State() == RandomCardState(old(State()), r)
      ensures Valid()
    {
      if |filteredCards| == 0 {
        return;
      }
      currentCardIndex := r;
      ShowCard(currentCardIndex);
    }

    method FlipCard()
      requires Valid()
      modifies this
      ensures State() == Flipped(old(State()))
      ensures Valid()
    {
      isFlipped := !isFlipped;
    }

    method ToggleStudyMode()
      requires Valid()
      modifies this
      ensures State() == StudyModeToggled(old(State()))
      ensures Valid()
    {
      studyMode := !studyMode;
      if studyMode {
        stats := ZeroStats;
      }
    }

    method WindowToggleStudyMode()
      requires Valid()
      modifies this
      ensures State() == StudyModeToggledByWindow(old(State()))
      ensures Valid()
    {
      studyMode := !studyMode;
    }

    method AnswerCard(result: Outcome)
      requires Valid()
      modifies this
      ensures State() == AnsweredCard(old(State()), result)
      ensures Valid()
    {
      match result
      case Correct => stats := stats.(correct := stats.correct + 1);
      case Incorrect => stats := stats.(incorrect := stats.incorrect + 1);
      case Skipped => stats := stats.(skipped := stats.skipped + 1);
    }

    method ToggleExplanation()
      requires Valid()
      modifies this
      ensures State() == ExplanationToggled(old(State()))
      ensures Valid()
    {
      showExplanation := !showExplanation;
    }

    method ResetStats()
      requires Valid()
      modifies this
      ensures State() == old(State()).(stats := ZeroStats)
      ensures Valid()
    {
      stats := ZeroStats;
    }

    method LoadQuestions(response: Response<seq<Question>>)
      requires Valid()
      modifies this
      ensures State() == QuestionsLoaded(old(State()), response)
      ensures Valid()
    {
      if response.Received? {
        questions := response.payload.GetOr([]);
        if mode == QuestionMode {
          ShowQuestion(0);
        }
      }
    }

    method SwitchToFlashcards()
      requires Valid()
      modifies this
      ensures State() == SwitchedToFlashcards(old(State()))
      ensures Valid()
    {
      mode := FlashcardMode;
    }

    /** With no questions the fetch is only started here; its completion
        is a later `LoadQuestions` call. */
    method SwitchToQuestions()
      requires Valid()
      modifies this
      ensures State() == SwitchedToQuestions(old(State()))
      ensures Valid()
    {
      mode := QuestionMode;
      if |questions| > 0 {
        ShowQuestion(currentQuestionIndex);
      }
    }

    method SwitchToTheory()
      requires Valid()
      modifies this
      ensures State() == SwitchedToTheory(old(State()))
      ensures Valid()
    {
      mode := TheoryMode;
    }

    method ShowQuestion(index: int)
      requires Valid()
      modifies this
      ensures State() == QuestionShown(old(State()), index)
      ensures Valid()
    {
      if |questions| == 0 {
        return;
      }
      var upper := if index < |questions| - 1 then index else |questions| - 1;
      currentQuestionIndex := if 0 > upper then 0 else upper;
      hasAnswered := false;
      currentAnswer := None;
    }

    /** `submitAnswer` with the scoring its last statement intends; the
        selected radio button's value is `selected`, `None` when nothing is
        selected. */
    method SubmitAnswer(selected: Option<int>)
      requires Valid()
      modifies this
      ensures State() == SubmittedIntended(old(State()), selected)
      ensures Valid()
    {
      if hasAnswered {
        return;
      }
      if selected.None? {
        return;
      }
      hasAnswered := true;
      currentAnswer := selected;
      if 0 <= currentQuestionIndex < |questions| {
        var question := questions[currentQuestionIndex];
        var isCorrect := currentAnswer == Some(question.correctAnswer);
        UpdateQuestionStats(isCorrect);
      }
    }

    method UpdateQuestionStats(isCorrect: bool)
      requires Valid()
      modifies this
      ensures State() == QuestionScored(old(State()), isCorrect)
      ensures Valid()
    {
      if isCorrect {
        stats := stats.(correct := stats.correct + 1);
      } else {
        stats := stats.(incorrect := stats.incorrect + 1);
      }
    }

    method PrevQuestion()
      requires Valid()
      modifies this
      ensures State() == PreviousQuestionState(old(State()))
      ensures Valid()
    {
      if currentQuestionIndex > 0 {
        ShowQuestion(currentQuestionIndex - 1);
      }
    }

    method NextQuestion()
      requires Valid()
      modifies this
      ensures State() == NextQuestionState(old(State()))
      ensures Valid()
    {
      if currentQuestionIndex < |questions| - 1 {
        ShowQuestion(currentQuestionIndex + 1);
      }
    }

    method SkipQuestion(r: nat)
      requires Valid()
      requires |questions| > 0 ==> r < |questions|
      modifies this
      ensures State() == SkippedQuestion(old(State()), r)
      ensures Valid()
    {
      if hasAnswered {
        return;
      }
      stats := stats.(skipped := stats.skipped + 1);
      if currentQuestionIndex < |questions| - 1 {
        NextQuestion();
      } else {
        RandomQuestion(r);
      }
    }

    method RandomQuestion(r: nat)
      requires Valid()
      requires |questions| > 0 ==> r < |questions|
      modifies this
      ensures State() == RandomQuestionState(old(State()), r)
      ensures Valid()
    {
      if |questions| > 0 {
        ShowQuestion(r);
      }
    }
  }

  /** Usage example: the handlers driven in sequence, entering the quiz
      mode, the fetch completing and a correct answer submitted, score one
      correct answer on the intended `submitAnswer`. */
  method QuizSession() returns (correct: nat, answered: bool)
    ensures correct == 1 && answered
  {
    var app := new StudyApp();
    var q := Question("ENEM", 2020, "basico", "Quantos anagramas tem AMOR?", ["4", "12", "24"], 2, None);
    app.SwitchToQuestions();
    app.LoadQuestions(Received(Some([q])));
    app.SubmitAnswer(Some(2));
    correct := app.stats.correct;
    answered := app.hasAnswered;
  }
}
