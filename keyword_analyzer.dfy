/** The keyword-coverage scorer: a case-insensitive substring test per topic
    keyword, merged with an external language-model analysis (a list of
    matched terms and a relevance map), then averaged over the topic's
    keywords into a score clamped at 100. The model's answer is a
    parameter: `Some(analysis)` when the call returned, `None` when it
    raised. */
module KeywordAnalyzer {
  import opened Outcomes
  import opened Strings
  import opened PyDict
  import opened Config

  /** The verdict for one keyword. */
  datatype KeywordMatch = KeywordMatch(keyword: Keyword, found: bool, score: real)

  /** The result of one scoring call. `keywordMatches` is keyed by the verbatim
      keyword term, in the order the terms were first kept. */
  datatype ScoringResult = ScoringResult(totalScore: real, keywordMatches: Dict<KeywordMatch>,
                                         keywordsFound: nat, totalKeywords: nat)

  /** The structured reply of the language model. */
  datatype KeywordAnalysis = KeywordAnalysis(matchedKeywords: seq<string>, relevanceScores: map<string, real>)

  /** A keyword that was not found is kept only above this relevance. */
  const RELEVANCE_THRESHOLD: real := 0.1

  /** The analysis used when the model call raised. */
  const EMPTY_ANALYSIS: KeywordAnalysis := KeywordAnalysis([], map[])

  function Max(a: real, b: real): real { if a >= b then a else b }

  /** Python's `min(a, b)`. */
  function Min(a: real, b: real): real { if b < a then b else a }

  /** `analyze_with_langchain`: the model's reply, or the empty analysis when
      the call raised. */
  function AnalyzeWithLangchain(reply: Option<KeywordAnalysis>): KeywordAnalysis {
    match reply
    case Some(a) => a
    case None => EMPTY_ANALYSIS
  }

  /** `check_keyword_in_text`: the lower-cased keyword is a substring of the
      lower-cased text (not a whole-word test). */
  predicate CheckKeywordInText(text: string, keyword: string) {
    Contains(Lower(text), Lower(keyword))
  }

  /** The keyword, lower-cased, occurs at some position of the lower-cased text. */
  lemma CheckKeywordInTextIff(text: string, keyword: string)
    ensures CheckKeywordInText(text, keyword) ==> exists i :: OccursAt(Lower(text), Lower(keyword), i)
    ensures (exists i :: OccursAt(Lower(text), Lower(keyword), i)) ==> CheckKeywordInText(text, keyword)
  {
    var t, k := Lower(text), Lower(keyword);
    if CheckKeywordInText(text, keyword) {
      var i := OccurrenceOf(t, k);
      assert OccursAt(Lower(text), Lower(keyword), i);
    }
    forall i | OccursAt(Lower(text), Lower(keyword), i)
      ensures CheckKeywordInText(text, keyword)
    {
      assert k == t[i..i + |k|];
      ContainsWindow(t, i, i + |k|);
    }
  }

  /** `relevance_scores.get(term, 0.0)`. */
  function AiScore(ai: KeywordAnalysis, term: string): (r: real)
    ensures term in ai.relevanceScores ==> r == ai.relevanceScores[term]
    ensures term !in ai.relevanceScores ==> r == 0.0
  {
    if term in ai.relevanceScores then ai.relevanceScores[term] else 0.0
  }

  /** A term counts as found when it is in the text or the model listed it verbatim. */
  predicate Found(text: string, term: string, ai: KeywordAnalysis) {
    CheckKeywordInText(text, term) || term in ai.matchedKeywords
  }

  /** The score recorded for a term. */
  function ScoreFor(text: string, term: string, ai: KeywordAnalysis): real {
    if Found(text, term, ai) then Max(0.0, AiScore(ai, term)) else AiScore(ai, term)
  }

  /** A term gets an entry when it was found or scored above the threshold. */
  predicate Kept(text: string, term: string, ai: KeywordAnalysis) {
    Found(text, term, ai) || ScoreFor(text, term, ai) > RELEVANCE_THRESHOLD
  }

  /** One iteration of the loop in `find_keyword_matches`. */
  function Record(matches: Dict<KeywordMatch>, text: string, keyword: Keyword, ai: KeywordAnalysis)
    : Dict<KeywordMatch>
  {
    if Kept(text, keyword.term, ai) then
      Put(matches, keyword.term, KeywordMatch(keyword, Found(text, keyword.term, ai), ScoreFor(text, keyword.term, ai)))
    else matches
  }

  /** The dict the loop has built after visiting `keywords` in order. */
  function KeywordMatches(text: string, keywords: seq<Keyword>, ai: KeywordAnalysis): Dict<KeywordMatch>
    decreases |keywords|
  {
    if keywords == [] then []
    else Record(KeywordMatches(text, keywords[..|keywords| - 1], ai), text, keywords[|keywords| - 1], ai)
  }

  /** `find_keyword_matches`: one model call, then one pass over the keywords. */
  method FindKeywordMatches(text: string, keywords: seq<Keyword>, reply: Option<KeywordAnalysis>)
    returns (matches: Dict<KeywordMatch>)
    ensures matches == KeywordMatches(text, keywords, AnalyzeWithLangchain(reply))
  {
    var ai := AnalyzeWithLangchain(reply);
    matches := [];
    var i := 0;
    while i < |keywords|
      invariant 0 <= i <= |keywords|
      invariant matches == KeywordMatches(text, keywords[..i], ai)
    {
      var keyword := keywords[i];
      var found := CheckKeywordInText(text, keyword.term);
      var aiScore := AiScore(ai, keyword.term);
      if keyword.term in ai.matchedKeywords && !found {
        found := true;
      }
      var score := if found then Max(0.0, aiScore) else aiScore;
      if found || score > RELEVANCE_THRESHOLD {
        matches := Put(matches, keyword.term, KeywordMatch(keyword, found, score));
      }
      assert keywords[..i + 1][..i] == keywords[..i];
      i := i + 1;
    }
    assert keywords[..i] == keywords;
  }

  /** The terms of the keywords that earn an entry. */
  function KeptTerms(text: string, keywords: seq<Keyword>, ai: KeywordAnalysis): set<string> {
    set k | k in keywords && Kept(text, k.term, ai) :: k.term
  }

  /** The index of the last keyword with term `t`, or -1. */
  function LastIndexOf(keywords: seq<Keyword>, t: string): (j: int)
    ensures -1 <= j < |keywords|
    ensures j >= 0 ==> keywords[j].term == t
    ensures forall j' :: j < j' < |keywords| ==> keywords[j'].term != t
    decreases |keywords|
  {
    if keywords == [] then -1
    else if keywords[|keywords| - 1].term == t then |keywords| - 1
    else LastIndexOf(keywords[..|keywords| - 1], t)
  }

  /** The keys are exactly the kept terms, each once, so there are no more
      entries than keywords. */
  lemma {:induction false} MatchesKeys(text: string, keywords: seq<Keyword>, ai: KeywordAnalysis)
    ensures Keys(KeywordMatches(text, keywords, ai)) == KeptTerms(text, keywords, ai)
    ensures DistinctKeys(KeywordMatches(text, keywords, ai))
    ensures |KeywordMatches(text, keywords, ai)| <= |keywords|
    decreases |keywords|
  {
    if keywords != [] {
      var init := keywords[..|keywords| - 1];
      var last := keywords[|keywords| - 1];
      MatchesKeys(text, init, ai);
      var m := KeywordMatches(text, init, ai);
      if Kept(text, last.term, ai) {
        PutDistinct(m, last.term, KeywordMatch(last, Found(text, last.term, ai), ScoreFor(text, last.term, ai)));
      }
      assert keywords == init + [last];
      assert KeptTerms(text, keywords, ai)
          == KeptTerms(text, init, ai) + (if Kept(text, last.term, ai) then {last.term} else {});
    }
  }

  /** Each entry records its term's verdict, and the keyword of the LAST
      keyword carrying that term: a repeated term overwrites the earlier one. */
  lemma {:induction false} MatchesEntry(text: string, keywords: seq<Keyword>, ai: KeywordAnalysis, t: string)
    requires t in Keys(KeywordMatches(text, keywords, ai))
    ensures Kept(text, t, ai)
    ensures LastIndexOf(keywords, t) >= 0
    ensures Get(KeywordMatches(text, keywords, ai), t)
         == Some(KeywordMatch(keywords[LastIndexOf(keywords, t)], Found(text, t, ai), ScoreFor(text, t, ai)))
    decreases |keywords|
  {
    var init := keywords[..|keywords| - 1];
    var last := keywords[|keywords| - 1];
    if last.term == t && Kept(text, t, ai) {
    } else {
      MatchesEntry(text, init, ai, t);
    }
  }

  /** Every recorded score is non-negative: found terms are clamped at 0 and
      the others are kept only above 0.1. */
  lemma ScoresNonNegative(text: string, keywords: seq<Keyword>, ai: KeywordAnalysis)
    ensures forall e :: e in KeywordMatches(text, keywords, ai) ==> e.1.score >= 0.0
  {
    var m := KeywordMatches(text, keywords, ai);
    MatchesKeys(text, keywords, ai);
    forall e | e in m ensures e.1.score >= 0.0 {
      var i :| 0 <= i < |m| && m[i] == e;
      GetEntry(m, i);
      assert e.0 in Keys(m);
      MatchesEntry(text, keywords, ai, e.0);
    }
  }

  /** `sum(match.score for match in matches.values())`. */
  function SumScores(matches: Dict<KeywordMatch>): real {
    if matches == [] then 0.0 else matches[0].1.score + SumScores(matches[1..])
  }

  lemma {:induction false} SumScoresNonNegative(matches: Dict<KeywordMatch>)
    requires forall e :: e in matches ==> e.1.score >= 0.0
    ensures SumScores(matches) >= 0.0
    decreases |matches|
  {
    if matches != [] {
      assert matches[0] in matches;
      SumScoresNonNegative(matches[1..]);
    }
  }

  lemma {:induction false} SumScoresZero(matches: Dict<KeywordMatch>)
    requires forall e :: e in matches ==> e.1.score == 0.0
    ensures SumScores(matches) == 0.0
    decreases |matches|
  {
    if matches != [] {
      assert matches[0] in matches;
      SumScoresZero(matches[1..]);
    }
  }

  /** `calculate_score`: the kept scores summed, divided by the number of
      keywords, times 100, clamped at 100; 0.0 when nothing was kept. */
  function CalculateScore(text: string, topic: Topic, reply: Option<KeywordAnalysis>): (r: ScoringResult)
    ensures 0.0 <= r.totalScore <= 100.0
    ensures r.totalKeywords == |topic.keywords|
    ensures r.keywordsFound == |r.keywordMatches| <= r.totalKeywords
    ensures DistinctKeys(r.keywordMatches)
    ensures Keys(r.keywordMatches) == KeptTerms(text, topic.keywords, AnalyzeWithLangchain(reply))
    ensures r.keywordMatches == [] ==> r.totalScore == 0.0
  {
    var ai := AnalyzeWithLangchain(reply);
    var matches := KeywordMatches(text, topic.keywords, ai);
    MatchesKeys(text, topic.keywords, ai);
    ScoresNonNegative(text, topic.keywords, ai);
    SumScoresNonNegative(matches);
    var total := if matches != [] then (SumScores(matches) / |topic.keywords| as real) * 100.0 else 0.0;
    ScoringResult(Min(100.0, total), matches, |matches|, |topic.keywords|)
  }

  /** When the model call fails, only substring hits are kept and each scores
      0, so the total is 0 however many keywords were found. */
  lemma FailedAnalysisScoresZero(text: string, topic: Topic)
    ensures CalculateScore(text, topic, None).totalScore == 0.0
    ensures Keys(CalculateScore(text, topic, None).keywordMatches)
         == set k | k in topic.keywords && CheckKeywordInText(text, k.term) :: k.term
  {
    var m := KeywordMatches(text, topic.keywords, EMPTY_ANALYSIS);
    MatchesKeys(text, topic.keywords, EMPTY_ANALYSIS);
    forall e | e in m ensures e.1.score == 0.0 {
      var i :| 0 <= i < |m| && m[i] == e;
      GetEntry(m, i);
      assert e.0 in Keys(m);
      MatchesEntry(text, topic.keywords, EMPTY_ANALYSIS, e.0);
    }
    SumScoresZero(m);
  }

  /** `analyze_conversation`: score the turns joined with single spaces. */
  function AnalyzeConversation(turns: seq<string>, topic: Topic, reply: Option<KeywordAnalysis>): ScoringResult {
    CalculateScore(Join(" ", turns), topic, reply)
  }

  /** A term found in one turn is found in the whole conversation: rescoring
      the accumulated text never loses a substring hit. */
  lemma FoundInTurnFoundInConversation(turns: seq<string>, k: nat, term: string)
    requires k < |turns| && CheckKeywordInText(turns[k], term)
    ensures CheckKeywordInText(Join(" ", turns), term)
  {
    var text := Join(" ", turns);
    var turn := turns[k];
    JoinContainsPart(" ", turns, k);
    var o := OccurrenceOf(text, turn);
    var i := OccurrenceOf(Lower(turn), Lower(term));
    LowerOccurrence(text, turn, o);
    OccursInWindow(Lower(text), Lower(turn), Lower(term), o, i);
    ContainsIff(Lower(text), Lower(term));
  }

  /** An occurrence inside a window of a text is an occurrence in the text. */
  lemma OccursInWindow(text: string, window: string, needle: string, o: int, i: int)
    requires OccursAt(text, window, o) && OccursAt(window, needle, i)
    ensures OccursAt(text, needle, o + i)
  {
    forall k | 0 <= k < |needle|
      ensures text[o + i + k] == needle[k]
    {
      assert needle[k] == window[i + k] == text[o..o + |window|][i + k];
    }
    assert text[o + i..o + i + |needle|] == needle;
  }

  /** A term can straddle two turns: "air" said in one turn and "pressure"
      in the next is a hit for "air pressure". */
  lemma TermAcrossTurnBoundary(first: string, second: string)
    ensures CheckKeywordInText(Join(" ", [first, second]), first + " " + second)
  {
    var term := first + " " + second;
    assert [first, second][1..] == [second];
    assert Join(" ", [first, second]) == term;
    var low := Lower(term);
    assert low[0..|low|] == low;
    ContainsWindow(low, 0, |low|);
  }

  /** Presence is substring containment, not a whole-word test: a term
      buried in a longer word ("research" in "researchers") is present. */
  lemma SubstringNotWholeWord(before: string, term: string, after: string)
    ensures CheckKeywordInText(before + term + after, term)
  {
    LowerConcat(before + term, after);
    LowerConcat(before, term);
    var low := Lower(term);
    assert low[0..|low|] == low;
    ContainsWindow(low, 0, |low|);
    ContainsInside(Lower(before), low, Lower(after), low);
  }

  /** All topic terms. */
  function TermSet(keywords: seq<Keyword>): set<string> {
    set k | k in keywords :: k.term
  }

  /** `get_missing_keywords` as a set: topic terms without an entry. */
  function GetMissingKeywords(result: ScoringResult, topic: Topic): (r: set<string>)
    ensures r <= TermSet(topic.keywords)
    ensures forall t :: t in r ==> t !in Keys(result.keywordMatches)
    ensures forall t :: t in TermSet(topic.keywords) && t !in Keys(result.keywordMatches) ==> t in r
  {
    TermSet(topic.keywords) - Keys(result.keywordMatches)
  }

  /** A topic term is missing from a scoring result exactly when no keyword
      earned an entry for it: the term is not in the text, the model did not
      list it, and the model rated it at most 0.1. */
  lemma MissingKeywordsExactly(text: string, topic: Topic, reply: Option<KeywordAnalysis>, t: string)
    ensures var ai := AnalyzeWithLangchain(reply);
      t in GetMissingKeywords(CalculateScore(text, topic, reply), topic) <==>
        && t in TermSet(topic.keywords)
        && !CheckKeywordInText(text, t)
        && t !in ai.matchedKeywords
        && AiScore(ai, t) <= RELEVANCE_THRESHOLD
  {
    var ai := AnalyzeWithLangchain(reply);
    var kept := KeptTerms(text, topic.keywords, ai);
    assert Keys(CalculateScore(text, topic, reply).keywordMatches) == kept;
    if t in TermSet(topic.keywords) {
      var k :| k in topic.keywords && k.term == t;
      assert t in kept <==> Kept(text, t, ai);
    }
  }

  /** `order` is one listing of `items`: every item exactly once. Python's
      `list(set)` fixes some such order; the model leaves it open. */
  ghost predicate ListsExactly(order: seq<string>, items: set<string>) {
    && |order| == |items|
    && (forall x :: x in order <==> x in items)
    && (forall i, j :: 0 <= i < j < |order| ==> order[i] != order[j])
  }

  const SUGGESTION_PREFIX: string := "Try discussing: "

  /** `generate_improvement_suggestions`, with `missingOrder` the order in
      which the missing set was listed: one suggestion naming the first (at
      most) three missing terms, or none when nothing is missing. */
  function GenerateImprovementSuggestions(result: ScoringResult, topic: Topic, missingOrder: seq<string>)
    : (r: seq<string>)
    requires ListsExactly(missingOrder, GetMissingKeywords(result, topic))
    ensures r == [] <==> GetMissingKeywords(result, topic) == {}
    ensures |r| <= 1
    ensures r != [] ==> r[0] == SUGGESTION_PREFIX + Join(", ", SuggestedTerms(missingOrder))
  {
    if missingOrder != [] then [SUGGESTION_PREFIX + Join(", ", SuggestedTerms(missingOrder))]
    else
      assert forall t :: t !in GetMissingKeywords(result, topic);
      []
  }

  /** `missing[:3]`. */
  function SuggestedTerms(missingOrder: seq<string>): seq<string> {
    if |missingOrder| <= 3 then missingOrder else missingOrder[..3]
  }

  /** The suggestion names min(3, |missing|) distinct missing terms. */
  lemma SuggestedTermsAreMissing(result: ScoringResult, topic: Topic, missingOrder: seq<string>)
    requires ListsExactly(missingOrder, GetMissingKeywords(result, topic))
    ensures |SuggestedTerms(missingOrder)| == if |GetMissingKeywords(result, topic)| < 3 then |GetMissingKeywords(result, topic)| else 3
    ensures forall t :: t in SuggestedTerms(missingOrder) ==> t in TermSet(topic.keywords) && t !in Keys(result.keywordMatches)
    ensures forall i, j :: 0 <= i < j < |SuggestedTerms(missingOrder)| ==> SuggestedTerms(missingOrder)[i] != SuggestedTerms(missingOrder)[j]
  {
  }
}
