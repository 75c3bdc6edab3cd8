/** The one-off script that adds metadata to the cards (`add_metadata.js`):
    keyword rules choose each card's category, difficulty and tags over its
    lower-cased text, and the cards are numbered from 1. */
module Metadata {
  import opened Wrappers
  import opened Text
  import opened Sequences
  import opened Counting
  import opened Cards

  /** The lower-cased `q + " " + a + " " + (explanation || "")` that the
      category and difficulty rules read. */
  function CategoryContent(card: RawCard): string {
    Lower(card.q + " " + card.a + " " + card.explanation.GetOr(""))
  }

  /** The lower-cased `q + " " + a` that the tag rules read. */
  function TagContent(card: RawCard): string {
    Lower(card.q + " " + card.a)
  }

  /** Some keyword of `keys` occurs in `content`. */
  predicate Mentions(content: string, keys: seq<string>) {
    exists i :: 0 <= i < |keys| && Contains(content, keys[i])
  }

  const PermutationWords: seq<string> := ["permutação", "anagrama", "ordenar", "p("]
  const ArrangementWords: seq<string> := ["arranjo", "a(", "presidente", "vice"]
  const CombinationWords: seq<string> := ["combinação", "c(", "subconjunto", "escolher"]
  const PrincipleWords: seq<string> := ["princípio", "produto cartesiano", "pares ordenados"]

  /** The labels `categorizeCard` can return. */
  const CategoryLabels: set<string> := {"permutacao", "arranjo", "combinacao", "principios", "geral"}

  /** `categorizeCard`: the first keyword group that occurs decides. */
  function CategorizeCard(card: RawCard): (category: string)
    ensures category in CategoryLabels
  {
    var content := CategoryContent(card);
    if Mentions(content, PermutationWords) then "permutacao"
    else if Mentions(content, ArrangementWords) then "arranjo"
    else if Mentions(content, CombinationWords) then "combinacao"
    else if Mentions(content, PrincipleWords) then "principios"
    else "geral"
  }

  /** Each category is chosen exactly when its group occurs and no earlier
      group does; "geral" exactly when none does. */
  lemma CategoryIsFirstMatch(card: RawCard)
    ensures var c, content := CategorizeCard(card), CategoryContent(card);
      && (c == "permutacao" <==> Mentions(content, PermutationWords))
      && (c == "arranjo" <==> !Mentions(content, PermutationWords) && Mentions(content, ArrangementWords))
      && (c == "combinacao" <==>
            !Mentions(content, PermutationWords) && !Mentions(content, ArrangementWords)
            && Mentions(content, CombinationWords))
      && (c == "principios" <==>
            !Mentions(content, PermutationWords) && !Mentions(content, ArrangementWords)
            && !Mentions(content, CombinationWords) && Mentions(content, PrincipleWords))
      && (c == "geral" <==>
            !Mentions(content, PermutationWords) && !Mentions(content, ArrangementWords)
            && !Mentions(content, CombinationWords) && !Mentions(content, PrincipleWords))
  {
  }

  /** Permutation wins over arrangement: a card whose text has both
      "anagrama" and "arranjo" is a permutation card. */
  lemma AnagramBeatsArrangement(card: RawCard)
    requires Contains(CategoryContent(card), "anagrama") && Contains(CategoryContent(card), "arranjo")
    ensures CategorizeCard(card) == "permutacao"
  {
    assert PermutationWords[1] == "anagrama";
  }

  /** Matching ignores letter case: a question mentioning "ANAGRAMA" (or
      any other permutation keyword in any case) is a permutation card. */
  lemma QuestionKeywordDecides(card: RawCard, word: string)
    requires word in PermutationWords && Contains(card.q, word)
    ensures CategorizeCard(card) == "permutacao"
  {
    var i :| 0 <= i < |PermutationWords| && PermutationWords[i] == word;
    var raw := card.q + " " + card.a + " " + card.explanation.GetOr("");
    assert raw == card.q + (" " + card.a + " " + card.explanation.GetOr(""));
    ContainsInConcat(card.q, " " + card.a + " " + card.explanation.GetOr(""), word);
    ContainsLower(raw, word);
    LowerPermutationWords(i);
  }

  /** The permutation keywords are already lower-case. */
  lemma LowerPermutationWords(i: nat)
    requires i < |PermutationWords|
    ensures Lower(PermutationWords[i]) == PermutationWords[i]
  {
    LowerOfLowerCase(PermutationWords[i]);
  }

  /** Adding text to the explanation never takes a card out of the
      permutation category. */
  lemma PermutationSurvivesMoreText(card: RawCard, extra: string)
    requires CategorizeCard(card) == "permutacao"
    ensures CategorizeCard(card.(explanation := Some(card.explanation.GetOr("") + extra))) == "permutacao"
  {
    var longer := card.(explanation := Some(card.explanation.GetOr("") + extra));
    var raw := card.q + " " + card.a + " " + card.explanation.GetOr("");
    assert card.q + " " + card.a + " " + longer.explanation.GetOr("") == raw + extra;
    LowerConcat(raw, extra);
    var i :| 0 <= i < |PermutationWords| && Contains(CategoryContent(card), PermutationWords[i]);
    ContainsInConcat(CategoryContent(card), Lower(extra), PermutationWords[i]);
  }

  /** An ASCII decimal digit: what `\d` matches. */
  predicate IsDigit(c: char) {
    '0' <= c <= '9'
  }

  /** `/\d{2,}/` finds a match: two digits in a row. */
  predicate HasDigitRun(s: string) {
    exists i :: 0 <= i < |s| - 1 && IsDigit(s[i]) && IsDigit(s[i + 1])
  }

  const BasicWords: seq<string> := ["fórmula", "definição"]
  const IntermediateWords: seq<string> :=
    ["banana", "circular", "repetição", "combinação com repetição"]

  /** The labels `getDifficulty` can return. */
  const DifficultyLabels: set<string> := {"basico", "intermediario", "avancado"}

  /** The first rule of `getDifficulty`. */
  predicate BasicRule(card: RawCard) {
    card.cardType == "formula" || Mentions(CategoryContent(card), BasicWords)
  }

  /** The second rule of `getDifficulty`. */
  predicate IntermediateRule(card: RawCard) {
    Mentions(CategoryContent(card), IntermediateWords) || HasDigitRun(CategoryContent(card))
  }

  /** The third rule of `getDifficulty`. */
  predicate AdvancedRule(card: RawCard) {
    card.cardType == "dica" && Contains(CategoryContent(card), "diferença")
  }

  /** `getDifficulty`: basic, intermediate and advanced rules in that order,
      basic by default. */
  function GetDifficulty(card: RawCard): (difficulty: string)
    ensures difficulty in DifficultyLabels
  {
    var content := CategoryContent(card);
    if card.cardType == "formula" || Mentions(content, BasicWords) then "basico"
    else if Mentions(content, IntermediateWords) || HasDigitRun(content) then "intermediario"
    else if card.cardType == "dica" && Contains(content, "diferença") then "avancado"
    else "basico"
  }

  /** The difficulty rules by priority: the basic rule overrides every
      other keyword, the intermediate one applies only without it, and
      "avancado" only when neither applies. */
  lemma DifficultyByPriority(card: RawCard)
    ensures BasicRule(card) ==> GetDifficulty(card) == "basico"
    ensures GetDifficulty(card) == "intermediario" <==> !BasicRule(card) && IntermediateRule(card)
    ensures GetDifficulty(card) == "avancado" <==>
      !BasicRule(card) && !IntermediateRule(card) && AdvancedRule(card)
    ensures GetDifficulty(card) == "basico" <==>
      BasicRule(card) || (!IntermediateRule(card) && !AdvancedRule(card))
  {
  }

  /** A card of type "formula" is basic even when its text is full of
      intermediate keywords and numbers. */
  lemma FormulaCardsAreBasic(card: RawCard)
    requires card.cardType == "formula"
    ensures GetDifficulty(card) == "basico"
  {
  }

  /** A number of two or more digits anywhere in the text makes a card
      without a basic keyword intermediate. */
  lemma NumbersMakeIntermediate(card: RawCard, i: nat)
    requires !BasicRule(card)
    requires i + 1 < |CategoryContent(card)|
    requires IsDigit(CategoryContent(card)[i]) && IsDigit(CategoryContent(card)[i + 1])
    ensures GetDifficulty(card) == "intermediario"
  {
  }

  /** The keyword "combinação com repetição" can never decide anything: every
      text containing it also contains "repetição", which is checked in the
      same rule. */
  lemma LongIntermediateKeywordIsRedundant(content: string)
    requires Contains(content, "combinação com repetição")
    ensures Contains(content, "repetição")
  {
    var long := "combinação com repetição";
    assert long[15..] == "repetição";
    ContainsFromSlice(long, 15, "repetição");
    ContainsTransitive(content, long, "repetição");
  }

  /** `if (fires) tags.push(tag)`, one line of `generateTags`. */
  function PushIf(tags: seq<string>, fires: bool, tag: string): seq<string> {
    if fires then tags + [tag] else tags
  }

  /** The three rules on the card type. */
  function TypeTags(card: RawCard): seq<string> {
    var tags := PushIf([], card.cardType == "formula", "formula-fundamental");
    var tags := PushIf(tags, card.cardType == "exemplo", "exemplo-pratico");
    PushIf(tags, card.cardType == "dica", "metodologia")
  }

  /** The first five word rules, after the type rules. */
  function FirstWordTags(card: RawCard): seq<string> {
    var content := TagContent(card);
    var tags := PushIf(TypeTags(card), Contains(content, "repetição"), "com-repeticao");
    var tags := PushIf(tags, Contains(content, "sem repetição"), "sem-repeticao");
    var tags := PushIf(tags, Contains(content, "anagrama"), "anagrama");
    var tags := PushIf(tags, Contains(content, "senha"), "senhas");
    PushIf(tags, Contains(content, "circular"), "circular")
  }

  /** The tags pushed by all thirteen rules, in the order of the rules. */
  function FiredTags(card: RawCard): seq<string> {
    var content := TagContent(card);
    var tags := PushIf(FirstWordTags(card), Contains(content, "subconjunto"), "subconjuntos");
    var tags := PushIf(tags, Contains(content, "fatorial"), "fatorial");
    var tags := PushIf(tags, Contains(content, "!"), "fatorial");
    var tags := PushIf(tags, Contains(content, "diferença"), "conceitos");
    PushIf(tags, Contains(content, "princípio"), "principio-multiplicativo")
  }

  /** What `generateTags` returns: the pushed tags, or ["geral"] when no
      rule pushed any. */
  function TagsFor(card: RawCard): seq<string> {
    var fired := FiredTags(card);
    if |fired| > 0 then fired else ["geral"]
  }

  /** Some rule on the card type fires. */
  predicate TypeRuleFires(card: RawCard) {
    card.cardType == "formula" || card.cardType == "exemplo" || card.cardType == "dica"
  }

  /** Some of the first five word rules fires. */
  predicate FirstWordRuleFires(content: string) {
    || Contains(content, "repetição") || Contains(content, "sem repetição")
    || Contains(content, "anagrama") || Contains(content, "senha") || Contains(content, "circular")
  }

  /** Some of the last five word rules fires. */
  predicate LastWordRuleFires(content: string) {
    || Contains(content, "subconjunto") || Contains(content, "fatorial") || Contains(content, "!")
    || Contains(content, "diferença") || Contains(content, "princípio")
  }

  /** Some tag rule fires on the card. */
  predicate AnyTagRuleFires(card: RawCard) {
    TypeRuleFires(card) || FirstWordRuleFires(TagContent(card)) || LastWordRuleFires(TagContent(card))
  }

  /** The tag each rule pushes, in the order of the rules. */
  const TypeRuleTags: seq<string> := ["formula-fundamental", "exemplo-pratico", "metodologia"]
  const FirstWordRuleTags: seq<string> := ["com-repeticao", "sem-repeticao", "anagrama", "senhas", "circular"]
  const LastWordRuleTags: seq<string> := ["subconjuntos", "fatorial", "fatorial", "conceitos", "principio-multiplicativo"]
  const RuleTags: seq<string> := TypeRuleTags + FirstWordRuleTags + LastWordRuleTags

  /** `tags.push(tag)` when `fires`. */
  method Push(tags: seq<string>, fires: bool, tag: string) returns (pushed: seq<string>)
    ensures pushed == PushIf(tags, fires, tag)
  {
    pushed := tags;
    if fires {
      pushed := pushed + [tag];
    }
  }

  /** `generateTags`, pushing one tag per rule that fires; the rules are run
      in three groups, in the source's order. */
  method GenerateTags(card: RawCard) returns (tags: seq<string>)
    ensures tags == TagsFor(card)
  {
    var content := TagContent(card);
    tags := PushTypeRules(card);
    tags := PushFirstWordRules(card, content, tags);
    tags := PushLastWordRules(card, content, tags);
    if |tags| == 0 {
      tags := ["geral"];
    }
  }

  /** The three rules on the card type, from an empty list. */
  method PushTypeRules(card: RawCard) returns (tags: seq<string>)
    ensures tags == TypeTags(card)
  {
    tags := [];
    tags := Push(tags, card.cardType == "formula", "formula-fundamental");
    tags := Push(tags, card.cardType == "exemplo", "exemplo-pratico");
    tags := Push(tags, card.cardType == "dica", "metodologia");
  }

  /** The first five word rules, after the type rules. */
  method PushFirstWordRules(card: RawCard, content: string, typeTags: seq<string>) returns (tags: seq<string>)
    requires content == TagContent(card) && typeTags == TypeTags(card)
    ensures tags == FirstWordTags(card)
  {
    tags := Push(typeTags, Contains(content, "repetição"), "com-repeticao");
    tags := Push(tags, Contains(content, "sem repetição"), "sem-repeticao");
    tags := Push(tags, Contains(content, "anagrama"), "anagrama");
    tags := Push(tags, Contains(content, "senha"), "senhas");
    tags := Push(tags, Contains(content, "circular"), "circular");
  }

  /** The last five word rules, after the first eight rules. */
  method PushLastWordRules(card: RawCard, content: string, earlier: seq<string>) returns (tags: seq<string>)
    requires content == TagContent(card) && earlier == FirstWordTags(card)
    ensures tags == FiredTags(card)
  {
    tags := Push(earlier, Contains(content, "subconjunto"), "subconjuntos");
    tags := Push(tags, Contains(content, "fatorial"), "fatorial");
    tags := Push(tags, Contains(content, "!"), "fatorial");
    tags := Push(tags, Contains(content, "diferença"), "conceitos");
    tags := Push(tags, Contains(content, "princípio"), "principio-multiplicativo");
  }

  /** What one push does to the list: one more element exactly when the
      rule fires, and that element is the rule's tag. */
  lemma PushIfFacts(tags: seq<string>, fires: bool, tag: string, x: string)
    ensures var r := PushIf(tags, fires, tag);
      && |r| == |tags| + (if fires then 1 else 0)
      && Count(r, x) == Count(tags, x) + (if fires && x == tag then 1 else 0)
  {
    if fires {
      assert (tags + [tag])[..|tags|] == tags;
    }
  }

  /** A push keeps the earlier order: the new tag goes after all others. */
  lemma PushIfOrder(tags: seq<string>, fires: bool, tag: string, order: seq<string>)
    requires IsSubsequence(tags, order)
    ensures IsSubsequence(PushIf(tags, fires, tag), order + [tag])
  {
    SubsequenceAppend(tags, order, tag, fires);
    assert PushIf(tags, fires, tag) == tags + (if fires then [tag] else []);
  }

  /** The pushed tags keep the order of the rules: they are a subsequence
      of the rules' tags. */
  lemma FiredTagsInRuleOrder(card: RawCard)
    ensures IsSubsequence(FiredTags(card), RuleTags)
  {
    var content := TagContent(card);
    var before := TypeRuleTags + FirstWordRuleTags;
    FirstWordTagsInOrder(card);
    var t1 := PushIf(FirstWordTags(card), Contains(content, "subconjunto"), "subconjuntos");
    var t2 := PushIf(t1, Contains(content, "fatorial"), "fatorial");
    var t3 := PushIf(t2, Contains(content, "!"), "fatorial");
    var t4 := PushIf(t3, Contains(content, "diferença"), "conceitos");
    PushIfOrder(FirstWordTags(card), Contains(content, "subconjunto"), "subconjuntos", before);
    PushIfOrder(t1, Contains(content, "fatorial"), "fatorial", before + ["subconjuntos"]);
    PushIfOrder(t2, Contains(content, "!"), "fatorial", before + ["subconjuntos"] + ["fatorial"]);
    PushIfOrder(t3, Contains(content, "diferença"), "conceitos",
                before + ["subconjuntos"] + ["fatorial"] + ["fatorial"]);
    PushIfOrder(t4, Contains(content, "princípio"), "principio-multiplicativo",
                before + ["subconjuntos"] + ["fatorial"] + ["fatorial"] + ["conceitos"]);
    assert before + ["subconjuntos"] + ["fatorial"] + ["fatorial"] + ["conceitos"] + ["principio-multiplicativo"]
        == RuleTags;
  }

  lemma FirstWordTagsInOrder(card: RawCard)
    ensures IsSubsequence(FirstWordTags(card), TypeRuleTags + FirstWordRuleTags)
  {
    var content := TagContent(card);
    var before := TypeRuleTags;
    TypeTagsInOrder(card);
    var t1 := PushIf(TypeTags(card), Contains(content, "repetição"), "com-repeticao");
    var t2 := PushIf(t1, Contains(content, "sem repetição"), "sem-repeticao");
    var t3 := PushIf(t2, Contains(content, "anagrama"), "anagrama");
    var t4 := PushIf(t3, Contains(content, "senha"), "senhas");
    PushIfOrder(TypeTags(card), Contains(content, "repetição"), "com-repeticao", before);
    PushIfOrder(t1, Contains(content, "sem repetição"), "sem-repeticao", before + ["com-repeticao"]);
    PushIfOrder(t2, Contains(content, "anagrama"), "anagrama", before + ["com-repeticao"] + ["sem-repeticao"]);
    PushIfOrder(t3, Contains(content, "senha"), "senhas",
                before + ["com-repeticao"] + ["sem-repeticao"] + ["anagrama"]);
    PushIfOrder(t4, Contains(content, "circular"), "circular",
                before + ["com-repeticao"] + ["sem-repeticao"] + ["anagrama"] + ["senhas"]);
    assert before + ["com-repeticao"] + ["sem-repeticao"] + ["anagrama"] + ["senhas"] + ["circular"]
        == TypeRuleTags + FirstWordRuleTags;
  }

  lemma TypeTagsInOrder(card: RawCard)
    ensures IsSubsequence(TypeTags(card), TypeRuleTags)
  {
    var ty := card.cardType;
    var t1 := PushIf([], ty == "formula", "formula-fundamental");
    var t2 := PushIf(t1, ty == "exemplo", "exemplo-pratico");
    SubsequenceReflexive<string>([]);
    PushIfOrder([], ty == "formula", "formula-fundamental", []);
    PushIfOrder(t1, ty == "exemplo", "exemplo-pratico", [] + ["formula-fundamental"]);
    PushIfOrder(t2, ty == "dica", "metodologia", [] + ["formula-fundamental"] + ["exemplo-pratico"]);
    assert [] + ["formula-fundamental"] + ["exemplo-pratico"] + ["metodologia"] == TypeRuleTags;
  }

  /** `generateTags` never returns an empty list, returns ["geral"] exactly
      when no rule fires, and never more tags than it has rules. */
  lemma TagsForShape(card: RawCard)
    ensures |TagsFor(card)| > 0 && |TagsFor(card)| <= |RuleTags|
    ensures TagsFor(card) == ["geral"] <==> !AnyTagRuleFires(card)
  {
    FiredTagsLength(card);
    FiredTagsCount(card);
    CountPositive(FiredTags(card), "geral");
    if FiredTags(card) != [] {
      assert FiredTags(card)[0] in FiredTags(card);
    }
  }

  /** 1 when `b` holds, 0 otherwise. */
  function Ind(b: bool): nat {
    if b then 1 else 0
  }

  /** The pushes of all thirteen rules: the list is as long as the number of
      rules that fire, so it is empty exactly when none fires. */
  lemma FiredTagsLength(card: RawCard)
    ensures |FiredTags(card)| <= 13
    ensures FiredTags(card) == [] <==> !AnyTagRuleFires(card)
  {
    TypeTagsLength(card);
    FirstWordTagsLength(card);
    LastWordTagsLength(card);
  }

  /** "geral" is never pushed, and "fatorial" once per rule for it. */
  lemma FiredTagsCount(card: RawCard)
    ensures Count(FiredTags(card), "geral") == 0
    ensures Count(FiredTags(card), "fatorial") ==
      Ind(Contains(TagContent(card), "fatorial")) + Ind(Contains(TagContent(card), "!"))
  {
    TypeTagsCount(card, "geral");
    FirstWordTagsCount(card, "geral");
    LastWordTagsCount(card, "geral");
    TypeTagsCount(card, "fatorial");
    FirstWordTagsCount(card, "fatorial");
    LastWordTagsCount(card, "fatorial");
  }

  lemma TypeTagsLength(card: RawCard)
    ensures |TypeTags(card)| ==
      Ind(card.cardType == "formula") + Ind(card.cardType == "exemplo") + Ind(card.cardType == "dica")
  {
  }

  lemma FirstWordTagsLength(card: RawCard)
    ensures var content := TagContent(card);
      |FirstWordTags(card)| == |TypeTags(card)|
        + Ind(Contains(content, "repetição")) + Ind(Contains(content, "sem repetição"))
        + Ind(Contains(content, "anagrama")) + Ind(Contains(content, "senha"))
        + Ind(Contains(content, "circular"))
  {
  }

  lemma LastWordTagsLength(card: RawCard)
    ensures var content := TagContent(card);
      |FiredTags(card)| == |FirstWordTags(card)|
        + Ind(Contains(content, "subconjunto")) + Ind(Contains(content, "fatorial"))
        + Ind(Contains(content, "!")) + Ind(Contains(content, "diferença"))
        + Ind(Contains(content, "princípio"))
  {
  }

  lemma TypeTagsCount(card: RawCard, x: string)
    ensures Count(TypeTags(card), x) ==
      Ind(card.cardType == "formula" && x == "formula-fundamental")
      + Ind(card.cardType == "exemplo" && x == "exemplo-pratico")
      + Ind(card.cardType == "dica" && x == "metodologia")
  {
    var ty := card.cardType;
    var t1 := PushIf([], ty == "formula", "formula-fundamental");
    var t2 := PushIf(t1, ty == "exemplo", "exemplo-pratico");
    PushIfFacts([], ty == "formula", "formula-fundamental", x);
    PushIfFacts(t1, ty == "exemplo", "exemplo-pratico", x);
    PushIfFacts(t2, ty == "dica", "metodologia", x);
  }

  lemma FirstWordTagsCount(card: RawCard, x: string)
    ensures var content := TagContent(card);
      Count(FirstWordTags(card), x) == Count(TypeTags(card), x)
        + Ind(Contains(content, "repetição") && x == "com-repeticao")
        + Ind(Contains(content, "sem repetição") && x == "sem-repeticao")
        + Ind(Contains(content, "anagrama") && x == "anagrama")
        + Ind(Contains(content, "senha") && x == "senhas")
        + Ind(Contains(content, "circular") && x == "circular")
  {
    var content := TagContent(card);
    FivePushesCount(TypeTags(card), x,
      Contains(content, "repetição"), "com-repeticao", Contains(content, "sem repetição"), "sem-repeticao",
      Contains(content, "anagrama"), "anagrama", Contains(content, "senha"), "senhas",
      Contains(content, "circular"), "circular");
  }

  lemma LastWordTagsCount(card: RawCard, x: string)
    ensures var content := TagContent(card);
      Count(FiredTags(card), x) == Count(FirstWordTags(card), x)
        + Ind(Contains(content, "subconjunto") && x == "subconjuntos")
        + Ind(Contains(content, "fatorial") && x == "fatorial")
        + Ind(Contains(content, "!") && x == "fatorial")
        + Ind(Contains(content, "diferença") && x == "conceitos")
        + Ind(Contains(content, "princípio") && x == "principio-multiplicativo")
  {
    var content := TagContent(card);
    FivePushesCount(FirstWordTags(card), x,
      Contains(content, "subconjunto"), "subconjuntos", Contains(content, "fatorial"), "fatorial",
      Contains(content, "!"), "fatorial", Contains(content, "diferença"), "conceitos",
      Contains(content, "princípio"), "principio-multiplicativo");
  }

  /** Five pushes in a row add one occurrence of `x` per push that fires
      with the tag `x`. */
  lemma FivePushesCount(t0: seq<string>, x: string, b1: bool, g1: string, b2: bool, g2: string,
                        b3: bool, g3: string, b4: bool, g4: string, b5: bool, g5: string)
    ensures Count(PushIf(PushIf(PushIf(PushIf(PushIf(t0, b1, g1), b2, g2), b3, g3), b4, g4), b5, g5), x)
      == Count(t0, x) + Ind(b1 && x == g1) + Ind(b2 && x == g2) + Ind(b3 && x == g3)
        + Ind(b4 && x == g4) + Ind(b5 && x == g5)
  {
    var t1 := PushIf(t0, b1, g1);
    var t2 := PushIf(t1, b2, g2);
    var t3 := PushIf(t2, b3, g3);
    var t4 := PushIf(t3, b4, g4);
    PushIfFacts(t0, b1, g1, x);
    PushIfFacts(t1, b2, g2, x);
    PushIfFacts(t2, b3, g3, x);
    PushIfFacts(t3, b4, g4, x);
    PushIfFacts(t4, b5, g5, x);
  }

  /** The tags depend only on the type, the question and the answer, never
      on the explanation. */
  lemma TagsIgnoreExplanation(card: RawCard, explanation: Option<string>)
    ensures TagsFor(card.(explanation := explanation)) == TagsFor(card)
  {
  }

  /** Any text with "sem repetição" also gets "com-repeticao", since it also
      contains "repetição". */
  lemma WithoutRepetitionAlsoTagsRepetition(card: RawCard)
    requires Contains(TagContent(card), "sem repetição")
    ensures "sem-repeticao" in TagsFor(card) && "com-repeticao" in TagsFor(card)
  {
    var phrase := "sem repetição";
    assert phrase[4..] == "repetição";
    ContainsFromSlice(phrase, 4, "repetição");
    ContainsTransitive(TagContent(card), phrase, "repetição");
  }

  /** "fatorial" is pushed once per rule that fires for it: twice when the
      text has both "fatorial" and "!". */
  lemma FactorialTagCount(card: RawCard)
    ensures var n := Count(TagsFor(card), "fatorial");
      n == Ind(Contains(TagContent(card), "fatorial")) + Ind(Contains(TagContent(card), "!"))
  {
    FiredTagsCount(card);
    if FiredTags(card) == [] {
      assert Count(["geral"], "fatorial") == 0;
    }
  }

  /** `processedCards`: each card with `id = index + 1`, its category,
      difficulty and tags computed, and its type, question, answer and
      explanation copied. */
  function ProcessCards(cards: seq<RawCard>): (processed: seq<Card>)
    ensures |processed| == |cards|
    ensures forall i :: 0 <= i < |cards| ==>
      && processed[i].id == i + 1
      && processed[i].cardType == cards[i].cardType
      && processed[i].q == cards[i].q
      && processed[i].a == cards[i].a
      && processed[i].explanation == cards[i].explanation
      && processed[i].category == CategorizeCard(cards[i])
      && processed[i].difficulty == GetDifficulty(cards[i])
      && processed[i].tags == Some(TagsFor(cards[i]))
  {
    seq(|cards|, i requires 0 <= i < |cards| =>
      var card := cards[i];
      Card(i + 1, card.cardType, CategorizeCard(card), GetDifficulty(card), Some(TagsFor(card)),
           card.q, card.a, card.explanation))
  }

  /** The ids run 1, 2, 3, ... and so are distinct and ascending; every
      processed card has a category, a difficulty and a non-empty tags
      array from the rule tables. */
  lemma ProcessedCardsAreNumberedAndTagged(cards: seq<RawCard>)
    ensures var p := ProcessCards(cards);
      && (forall i, j :: 0 <= i < j < |p| ==> p[i].id < p[j].id)
      && (forall i :: 0 <= i < |p| ==>
            && p[i].category in CategoryLabels
            && p[i].difficulty in DifficultyLabels
            && p[i].tags.Some? && |p[i].tags.value| > 0)
  {
    var p := ProcessCards(cards);
    forall i | 0 <= i < |p|
      ensures p[i].tags.Some? && |p[i].tags.value| > 0
    {
      TagsForShape(cards[i]);
    }
  }
}
