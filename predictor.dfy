/**
 * The heuristic scorers of `app/detector.py` and `predict_phishing`, which fuses
 * them with the classifier output into the first-stage verdict.
 *
 * The trained classifiers are not modelled: what they answer for a given text is
 * the input `Scores`.  Regular-expression searches go to the abstract engine,
 * except the whole-word keyword search, whose `\b` is written out over the
 * Unicode database's `\w` class.
 */
module Predictor {
  import opened Wrappers
  import opened Strings
  import opened Numeric
  import opened Oracles
  import opened UrlExtract
  import opened UrlChecks
  import Emotional

  // ---------------------------------------------------------------- urgency

  /** Every weight of the urgency table lies between 6 and 10. */
  type UrgencyWeight = w: nat | 6 <= w <= 10 witness 6

  /** `urgency_keywords`, in dictionary order. */
  const UrgencyKeywords: seq<(string, UrgencyWeight)> := [
    ("urgent", 10), ("immediate", 9), ("asap", 9), ("deadline", 8), ("expires", 8),
    ("act now", 9), ("limited time", 8), ("hurry", 8), ("immediately", 9), ("today", 7),
    ("now", 7), ("must", 6), ("right now", 10), ("final notice", 10), ("last chance", 9)]

  /** `(urgency_score, keyword_count)` after the first `k` phrases of `table`, each counted independently. */
  function UrgencyTally(t: string, table: seq<(string, UrgencyWeight)>, k: nat): (nat, nat)
    requires k <= |table|
  {
    if k == 0 then (0, 0)
    else
      var (weighted, count) := UrgencyTally(t, table, k - 1);
      var n := Count(t, table[k - 1].0);
      (weighted + n * table[k - 1].1, count + n)
  }

  /** `min(urgency_score / max(keyword_count, 1), 10)`. */
  function UrgencyOf(weighted: nat, count: nat): real {
    Min(weighted as real / (if count > 1 then count else 1) as real, 10.0)
  }

  /** `calculate_urgency_score(text)`. */
  function UrgencyScore(text: string): real {
    var (weighted, count) := UrgencyTally(Lower(text), UrgencyKeywords, |UrgencyKeywords|);
    UrgencyOf(weighted, count)
  }

  /** The loop over the phrase table. */
  method TallyUrgency(t: string, table: seq<(string, UrgencyWeight)>) returns (urgencyScore: nat, keywordCount: nat)
    ensures (urgencyScore, keywordCount) == UrgencyTally(t, table, |table|)
  {
    urgencyScore, keywordCount := 0, 0;
    var i := 0;
    while i < |table|
      invariant i <= |table|
      invariant (urgencyScore, keywordCount) == UrgencyTally(t, table, i)
    {
      var (keyword, weight) := table[i];
      var count := Count(t, keyword);
      if count > 0 {
        urgencyScore := urgencyScore + count * weight;
        keywordCount := keywordCount + count;
      }
      i := i + 1;
    }
  }

  method CalculateUrgencyScore(text: string) returns (r: real)
    ensures r == UrgencyScore(text)
  {
    var urgencyScore, keywordCount := TallyUrgency(Lower(text), UrgencyKeywords);
    r := UrgencyOf(urgencyScore, keywordCount);
  }

  // ------------------------------------------------------- academic keywords

  /** `ACADEMIC_KEYWORDS`. */
  const AcademicKeywords: seq<string> := [
    "scholarship", "exam", "fee", "admission", "certificate", "deadline",
    "registration", "result", "verification", "urgent", "update", "verify",
    "account", "credentials", "password", "confirm", "approve",
    "claim", "grant", "disbursement", "internship", "alert", "suspend"]

  /** `\b` at position `i`: a `\w` character on exactly one side. */
  predicate IsBoundary(lib: Stdlib, t: string, i: nat)
    requires i <= |t|
  {
    (i > 0 && lib.isWordChar(t[i - 1])) != (i < |t| && lib.isWordChar(t[i]))
  }

  /** `kw` occurs at `i` with a word boundary on both sides. */
  predicate WholeWordAt(lib: Stdlib, t: string, kw: string, i: nat) {
    OccursAt(t, kw, i) && IsBoundary(lib, t, i) && IsBoundary(lib, t, i + |kw|)
  }

  /** `re.search(r'\b' + re.escape(kw) + r'\b', t)`. */
  predicate HasWholeWord(lib: Stdlib, t: string, kw: string) {
    exists i: nat :: i <= |t| && WholeWordAt(lib, t, kw, i)
  }

  /** The entries among the first `k` of `table` that occur as whole words in `t`, in table order. */
  function KeywordsUpTo(lib: Stdlib, t: string, table: seq<string>, k: nat): seq<string>
    requires k <= |table|
  {
    if k == 0 then []
    else KeywordsUpTo(lib, t, table, k - 1) + (if HasWholeWord(lib, t, table[k - 1]) then [table[k - 1]] else [])
  }

  /** `extract_academic_keywords(text)`. */
  function AcademicKeywordsIn(lib: Stdlib, text: string): seq<string> {
    KeywordsUpTo(lib, Lower(text), AcademicKeywords, |AcademicKeywords|)
  }

  method FilterKeywords(lib: Stdlib, t: string, table: seq<string>) returns (found: seq<string>)
    ensures found == KeywordsUpTo(lib, t, table, |table|)
  {
    found := [];
    var i := 0;
    while i < |table|
      invariant i <= |table|
      invariant found == KeywordsUpTo(lib, t, table, i)
    {
      if HasWholeWord(lib, t, table[i]) {
        found := found + [table[i]];
      }
      i := i + 1;
    }
  }

  method ExtractAcademicKeywords(lib: Stdlib, text: string) returns (found: seq<string>)
    ensures found == AcademicKeywordsIn(lib, text)
  {
    found := FilterKeywords(lib, Lower(text), AcademicKeywords);
  }

  // ------------------------------------------------------------- indicators

  /** `PHISHING_INDICATORS`: `(name, pattern)` pairs in dictionary order. */
  const IndicatorTable: seq<(string, string)> := [
    ("verify_account", "verify.*account|confirm.*account|validate.*account"),
    ("urgent_action", "urgent|immediately|today|right now|asap|act now"),
    ("suspicious_links", "click\\s+here|click.*link|click.*below|confirm.*link"),
    ("credential_request", "provide.*password|enter.*credentials|confirm.*identity|banking details"),
    ("threat_language", "expire|suspend|deactivate|delete|locked|compromised"),
    ("too_good", "congratulations|approved|eligible|won|refund|reward")]

  /** How many of the first `k` patterns of `table` match `t`. */
  function MatchingUpTo(engine: Engine, t: string, table: seq<(string, string)>, k: nat): (n: nat)
    requires k <= |table|
    ensures n <= k
  {
    if k == 0 then 0
    else MatchingUpTo(engine, t, table, k - 1) + (if engine.Search(table[k - 1].1, t) then 1 else 0)
  }

  /** `calculate_phishing_indicators_score(text)`: the matching share of the six categories, times 10. */
  function IndicatorsScore(engine: Engine, text: string): real {
    MatchingUpTo(engine, Lower(text), IndicatorTable, |IndicatorTable|) as real / |IndicatorTable| as real * 10.0
  }

  method CountIndicators(engine: Engine, t: string, table: seq<(string, string)>) returns (indicatorCount: nat)
    ensures indicatorCount == MatchingUpTo(engine, t, table, |table|)
  {
    indicatorCount := 0;
    var i := 0;
    while i < |table|
      invariant i <= |table|
      invariant indicatorCount == MatchingUpTo(engine, t, table, i)
    {
      var (_, pattern) := table[i];
      if engine.Search(pattern, t) {
        indicatorCount := indicatorCount + 1;
      }
      i := i + 1;
    }
  }

  method CalculatePhishingIndicatorsScore(engine: Engine, text: string) returns (r: real)
    ensures r == IndicatorsScore(engine, text)
  {
    var indicatorCount := CountIndicators(engine, Lower(text), IndicatorTable);
    r := indicatorCount as real / |IndicatorTable| as real * 10.0;
  }

  // ---------------------------------------------------------------- headers

  /** `hdrs.get(key, '')`. */
  function HeaderOr(headers: map<string, string>, key: string): string {
    if key in headers then headers[key] else ""
  }

  /** The `Authentication-Results` value, else the one under the key with a trailing colon. */
  function AuthResults(headers: map<string, string>): string {
    var plain := HeaderOr(headers, "Authentication-Results");
    if plain != "" then plain else HeaderOr(headers, "Authentication-Results:")
  }

  function Flag(b: bool): real { if b then 1.0 else 0.0 }

  /** `header_features(hdrs)`: the SPF, DKIM and DMARC pass flags. */
  function HeaderFeatures(headers: map<string, string>): (real, real, real) {
    if headers == map[] then (0.0, 0.0, 0.0)
    else
      var auth := Lower(AuthResults(headers));
      (Flag(Contains(auth, "spf=pass")), Flag(Contains(auth, "dkim=pass")), Flag(Contains(auth, "dmarc=pass")))
  }

  /** `header_risk`: one minus the mean of the three flags. */
  function HeaderRisk(headers: map<string, string>): real {
    var (spf, dkim, dmarc) := HeaderFeatures(headers);
    1.0 - (spf + dkim + dmarc) / 3.0
  }

  // ------------------------------------------------------------- URL flag

  /** What the URL loop reads of one URL: a shortener, suspicious-TLD or IP host; a suspicious path. */
  datatype UrlFlags = UrlFlags(strong: bool, path: bool)

  function FlagsOf(lib: Stdlib, url: string): UrlFlags {
    UrlFlags(IsUrlShortener(lib, url) || HasSuspiciousTld(lib, url) || IsIpAddressUrl(lib, DetectorCopy, url),
             CheckSuspiciousPath(lib, url))
  }

  function FlagsOfAll(lib: Stdlib, urls: seq<string>): (r: seq<UrlFlags>)
    ensures |r| == |urls| && forall i :: 0 <= i < |urls| ==> r[i] == FlagsOf(lib, urls[i])
  {
    seq(|urls|, i requires 0 <= i < |urls| => FlagsOf(lib, urls[i]))
  }

  /** `url_risk`: 1 when some URL has a strong flag, else 0.7 when some path is suspicious, else 0. */
  function CoarseRiskOf(flags: seq<UrlFlags>): real {
    if exists i :: 0 <= i < |flags| && flags[i].strong then 1.0
    else if exists i :: 0 <= i < |flags| && flags[i].path then 0.7
    else 0.0
  }

  /** The URL loop, which stops at the first strong flag. */
  method CoarseUrlRisk(flags: seq<UrlFlags>) returns (urlRisk: real)
    ensures urlRisk == CoarseRiskOf(flags)
  {
    urlRisk := 0.0;
    var i := 0;
    while i < |flags|
      invariant i <= |flags|
      invariant forall j :: 0 <= j < i ==> !flags[j].strong
      invariant urlRisk == if exists j :: 0 <= j < i && flags[j].path then 0.7 else 0.0
    {
      if flags[i].strong {
        urlRisk := 1.0;
        return;
      }
      if flags[i].path {
        urlRisk := Max(urlRisk, 0.7);
      }
      i := i + 1;
    }
  }

  // ------------------------------------------------------------- ensemble

  /**
   * What the loaded models answer for the text.  `pipeline`: `None` when the
   * bundle has none, `Some(None)` when scoring with it raised.  `vectorizer`: the
   * bundle holds one.  The three classifiers: `None` when absent or when scoring
   * raised; the SVM value is already passed through the logistic function.
   */
  datatype Scores = Scores(
    pipeline: Option<Option<real>>, vectorizer: bool, logistic: Option<real>, nb: Option<real>, svm: Option<real>)

  /** The named entry for a classifier that answered. */
  function Entry(name: string, p: Option<real>): seq<(string, real)> {
    match p
    case None => []
    case Some(x) => [(name, x)]
  }

  function Values(probs: seq<(string, real)>): seq<real> {
    seq(|probs|, i requires 0 <= i < |probs| => probs[i].1)
  }

  function Sum(xs: seq<real>): real {
    if xs == [] then 0.0 else xs[0] + Sum(xs[1..])
  }

  /** `(ensemble_score, model_probs)`: the pipeline's answer, else, when that is exactly 0, the mean of the others. */
  function EnsembleOf(s: Scores): (real, seq<(string, real)>) {
    var first := match s.pipeline case Some(Some(p)) => [("pipeline", p)] case _ => [];
    var score := match s.pipeline case Some(Some(p)) => p case _ => 0.0;
    if score == 0.0 && s.vectorizer then
      var probs := first + Entry("logistic", s.logistic) + Entry("nb", s.nb) + Entry("svm", s.svm);
      (if probs == [] then score else Sum(Values(probs)) / |probs| as real, probs)
    else (score, first)
  }

  method SelectEnsemble(s: Scores) returns (ensembleScore: real, modelProbs: seq<(string, real)>)
    ensures (ensembleScore, modelProbs) == EnsembleOf(s)
  {
    modelProbs := [];
    var modelScores: seq<real> := [];
    ensembleScore := 0.0;
    if s.pipeline.Some? {
      match s.pipeline.value
      case Some(prob) =>
        modelProbs := [("pipeline", prob)];
        modelScores := [prob];
        ensembleScore := prob;
      case None =>
        ensembleScore := 0.0;
        modelProbs := [];
        modelScores := [];
    }
    if ensembleScore == 0.0 && s.vectorizer {
      if s.logistic.Some? {
        modelProbs := modelProbs + [("logistic", s.logistic.value)];
        modelScores := modelScores + [s.logistic.value];
      }
      if s.nb.Some? {
        modelProbs := modelProbs + [("nb", s.nb.value)];
        modelScores := modelScores + [s.nb.value];
      }
      if s.svm.Some? {
        modelProbs := modelProbs + [("svm", s.svm.value)];
        modelScores := modelScores + [s.svm.value];
      }
      assert modelScores == Values(modelProbs);
      assert modelProbs == EnsembleOf(s).1;
      if modelScores != [] {
        ensembleScore := Sum(modelScores) / |modelScores| as real;
      }
    }
  }

  // ----------------------------------------------------------------- fusion

  datatype Verdict = Phishing | Legitimate
  {
    function Name(): string {
      match this
      case Phishing => "PHISHING"
      case Legitimate => "LEGITIMATE"
    }
  }

  /** The decision threshold of both fusion stages. */
  const Threshold: real := 0.45

  /** `final_score`: the six-term weighted sum. */
  function FinalScore(ensemble: real, emotionalRisk: real, indicators: real, urgency: real,
                      headerRisk: real, urlRisk: real): real {
    0.35 * ensemble + 0.20 * emotionalRisk + 0.20 * (indicators / 10.0) + 0.15 * (urgency / 10.0)
    + 0.05 * headerRisk + 0.05 * urlRisk
  }

  function VerdictOf(score: real): (v: Verdict)
    ensures v == Phishing <==> score >= Threshold
  {
    if score >= Threshold then Phishing else Legitimate
  }

  /** The dictionary `predict_phishing` returns. */
  datatype Prediction = Prediction(
    classification: Verdict,
    confidence: real,
    modelProbs: seq<(string, real)>,
    urgencyScore: real,
    indicatorsScore: real,
    keywords: seq<string>,
    ensembleScore: real,
    emotional: Emotional.Analysis)

  /**
   * `predict_phishing(text, bundle, headers)`: the models answer `scores`, and the
   * extracted URLs are taken in the iteration order `order` of their set.
   */
  function PredictionOf(engine: Engine, lib: Stdlib, text: string, scores: Scores,
                        headers: map<string, string>, order: seq<string>): Prediction
  {
    Assemble(EnsembleOf(scores), Emotional.AnalysisOf(engine, lib, Some(text)), IndicatorsScore(engine, text),
             UrgencyScore(text), HeaderRisk(headers), CoarseRiskOf(FlagsOfAll(lib, order)), AcademicKeywordsIn(lib, text))
  }

  /** The hidden-meaning score normalised to [0, 1]. */
  function EmotionalRisk(analysis: Emotional.Analysis): real {
    analysis.hiddenMeaning / 100.0
  }

  /** The returned dictionary, put together from the separately computed parts. */
  function Assemble(ensemble: (real, seq<(string, real)>), analysis: Emotional.Analysis, indicators: real,
                    urgency: real, headerRisk: real, urlRisk: real, keywords: seq<string>): Prediction
  {
    var score := FinalScore(ensemble.0, EmotionalRisk(analysis), indicators, urgency, headerRisk, urlRisk);
    Prediction(VerdictOf(score), score, ensemble.1, urgency, indicators, keywords, ensemble.0, analysis)
  }

  method PredictPhishing(engine: Engine, lib: Stdlib, text: string, scores: Scores,
                         headers: map<string, string>, order: seq<string>) returns (r: Prediction)
    requires Enumerates(order, ExtractUrls(DetectorCopy, text))
    ensures r == PredictionOf(engine, lib, text, scores, headers, order)
  {
    var ensembleScore, modelProbs := SelectEnsemble(scores);
    var urgency := CalculateUrgencyScore(text);
    var phishingIndicators := CalculatePhishingIndicatorsScore(engine, text);
    var keywords := ExtractAcademicKeywords(lib, text);
    var emotionalAnalysis := Emotional.AnalyzeEmotionalTone(engine, lib, Some(text));
    var emotionalRisk := EmotionalRisk(emotionalAnalysis);
    var urlRisk := CoarseUrlRisk(FlagsOfAll(lib, order));
    var headerRisk := HeaderRisk(headers);
    var finalScore := FinalScore(ensembleScore, emotionalRisk, phishingIndicators, urgency, headerRisk, urlRisk);
    r := Prediction(VerdictOf(finalScore), finalScore, modelProbs, urgency, phishingIndicators, keywords,
                    ensembleScore, emotionalAnalysis);
  }

  // ------------------------------------------------------- urgency lemmas

  /** Every counted phrase weighs between 6 and 10, so the weighted sum lies between 6 and 10 times the count. */
  lemma {:induction false} UrgencyTallyBounds(t: string, table: seq<(string, UrgencyWeight)>, k: nat)
    requires k <= |table|
    ensures var (weighted, count) := UrgencyTally(t, table, k); 6 * count <= weighted <= 10 * count
  {
    if k > 0 {
      UrgencyTallyBounds(t, table, k - 1);
      var n := Count(t, table[k - 1].0);
      var w: nat := table[k - 1].1;
      assert 6 * n <= n * w <= 10 * n;
    }
  }

  /** No phrase is counted exactly when none of the first `k` phrases occurs in `t`. */
  lemma {:induction false} UrgencyCountZero(t: string, table: seq<(string, UrgencyWeight)>, k: nat)
    requires k <= |table|
    ensures UrgencyTally(t, table, k).1 == 0 <==> forall j :: 0 <= j < k ==> !Contains(t, table[j].0)
  {
    if k > 0 {
      UrgencyCountZero(t, table, k - 1);
      CountPositiveIffContains(t, table[k - 1].0);
    }
  }

  /**
   * The urgency score is 0 exactly when no table phrase occurs in the lowercased
   * text; otherwise it is the count-weighted mean weight, which lies in [6, 10].
   */
  lemma UrgencyRange(text: string)
    ensures var r := UrgencyScore(text);
      (r == 0.0 <==> forall j :: 0 <= j < |UrgencyKeywords| ==> !Contains(Lower(text), UrgencyKeywords[j].0))
      && (r == 0.0 || 6.0 <= r <= 10.0)
  {
    var t := Lower(text);
    var (weighted, count) := UrgencyTally(t, UrgencyKeywords, |UrgencyKeywords|);
    UrgencyTallyBounds(t, UrgencyKeywords, |UrgencyKeywords|);
    UrgencyCountZero(t, UrgencyKeywords, |UrgencyKeywords|);
    if count > 0 {
      MeanWithin(weighted, count, 6, 10);
    }
  }

  lemma MissesAt(s: string, sub: string, i: nat)
    requires 0 < |sub| && i < |s| && s[i] != sub[0]
    ensures !OccursAt(s, sub, i)
  {
    assert i + |sub| <= |s| ==> s[i..i + |sub|][0] == s[i];
  }

  /** A phrase is also counted inside a longer one: "now" is found inside "act now" and inside "know". */
  lemma NowCountedInsideWords()
    ensures Count("act now", "now") == 1 && Count("i know", "now") == 1
  {
    var s := "act now";
    assert CountFrom(s, "now", 7) == 0;
    assert s[4..7] == "now";
    assert CountFrom(s, "now", 4) == 1;
    MissesAt(s, "now", 3);
    MissesAt(s, "now", 2);
    MissesAt(s, "now", 1);
    assert CountFrom(s, "now", 3) == 1;
    assert CountFrom(s, "now", 2) == 1;
    assert CountFrom(s, "now", 1) == 1;
    var t := "i know";
    assert CountFrom(t, "now", 6) == 0;
    assert t[3..6] == "now";
    assert CountFrom(t, "now", 3) == 1;
    MissesAt(t, "now", 2);
    MissesAt(t, "now", 1);
    assert CountFrom(t, "now", 2) == 1;
    assert CountFrom(t, "now", 1) == 1;
  }

  // ------------------------------------------------------ keyword lemmas

  /** A keyword is kept exactly when it is among the first `k` entries and occurs as a whole word. */
  lemma {:induction false} KeywordsMembership(lib: Stdlib, t: string, table: seq<string>, k: nat, kw: string)
    requires k <= |table|
    ensures kw in KeywordsUpTo(lib, t, table, k) <==> kw in table[..k] && HasWholeWord(lib, t, kw)
  {
    if k > 0 {
      KeywordsMembership(lib, t, table, k - 1, kw);
      assert table[..k] == table[..k - 1] + [table[k - 1]];
    }
  }

  /** The kept keywords appear in table order: each is the table entry at a strictly increasing index. */
  lemma {:induction false} KeywordsInTableOrder(lib: Stdlib, t: string, table: seq<string>, k: nat)
    returns (idx: seq<nat>)
    requires k <= |table|
    ensures var r := KeywordsUpTo(lib, t, table, k);
      |idx| == |r|
      && (forall i :: 0 <= i < |r| ==> idx[i] < k && r[i] == table[idx[i]])
      && (forall i, j :: 0 <= i < j < |r| ==> idx[i] < idx[j])
  {
    if k == 0 {
      idx := [];
    } else {
      idx := KeywordsInTableOrder(lib, t, table, k - 1);
      if HasWholeWord(lib, t, table[k - 1]) {
        idx := idx + [k - 1];
      }
    }
  }

  predicate Distinct(xs: seq<string>) {
    forall i, j :: 0 <= i < j < |xs| ==> xs[i] != xs[j]
  }

  /** A table without repeats yields keywords without repeats. */
  lemma KeywordsDistinct(lib: Stdlib, t: string, table: seq<string>, k: nat)
    requires k <= |table| && Distinct(table)
    ensures Distinct(KeywordsUpTo(lib, t, table, k))
  {
    var idx := KeywordsInTableOrder(lib, t, table, k);
  }

  /** `ACADEMIC_KEYWORDS` holds no entry twice. */
  lemma AcademicKeywordsDistinct()
    ensures Distinct(AcademicKeywords)
  {
    var xs := AcademicKeywords;
    AcademicKeywordsShape(xs);
    forall i, j | 0 <= i < j < |xs|
      ensures xs[i] != xs[j]
    {
      if |xs[i]| == |xs[j]| && xs[i][0] == xs[j][0] {
        assert xs[i][1] != xs[j][1];
      }
    }
  }

  /** The length and first letter of each entry, and the second letter where those two repeat. */
  lemma AcademicKeywordsShape(xs: seq<string>)
    requires xs == AcademicKeywords
    ensures |xs| == 23 && forall i :: 0 <= i < 23 ==> |xs[i]| >= 3
    ensures |xs[0]| == 11 && xs[0][0] == 's'
    ensures |xs[1]| == 4 && xs[1][0] == 'e'
    ensures |xs[2]| == 3 && xs[2][0] == 'f'
    ensures |xs[3]| == 9 && xs[3][0] == 'a'
    ensures |xs[4]| == 11 && xs[4][0] == 'c' && xs[4][1] == 'e'
    ensures |xs[5]| == 8 && xs[5][0] == 'd'
    ensures |xs[6]| == 12 && xs[6][0] == 'r'
    ensures |xs[7]| == 6 && xs[7][0] == 'r'
    ensures |xs[8]| == 12 && xs[8][0] == 'v'
    ensures |xs[9]| == 6 && xs[9][0] == 'u' && xs[9][1] == 'r'
    ensures |xs[10]| == 6 && xs[10][0] == 'u' && xs[10][1] == 'p'
    ensures |xs[11]| == 6 && xs[11][0] == 'v'
    ensures AcademicKeywordsTail(xs)
  {
    AcademicKeywordsTailShape(xs);
  }

  predicate AcademicKeywordsTail(xs: seq<string>)
    requires |xs| == 23 && forall i :: 0 <= i < 23 ==> |xs[i]| >= 3
  {
    |xs[12]| == 7 && xs[12][0] == 'a' && xs[12][1] == 'c'
    && |xs[13]| == 11 && xs[13][0] == 'c' && xs[13][1] == 'r'
    && |xs[14]| == 8 && xs[14][0] == 'p'
    && |xs[15]| == 7 && xs[15][0] == 'c'
    && |xs[16]| == 7 && xs[16][0] == 'a' && xs[16][1] == 'p'
    && |xs[17]| == 5 && xs[17][0] == 'c'
    && |xs[18]| == 5 && xs[18][0] == 'g'
    && |xs[19]| == 12 && xs[19][0] == 'd'
    && |xs[20]| == 10 && xs[20][0] == 'i'
    && |xs[21]| == 5 && xs[21][0] == 'a'
    && |xs[22]| == 7 && xs[22][0] == 's'
  }

  lemma AcademicKeywordsTailShape(xs: seq<string>)
    requires xs == AcademicKeywords
    ensures |xs| == 23 && forall i :: 0 <= i < 23 ==> |xs[i]| >= 3
    ensures AcademicKeywordsTail(xs)
  {
  }

  /**
   * `extract_academic_keywords` returns exactly the table entries that occur as
   * whole words in the lowercased text, each once, in table order: `idx` gives the
   * table index of each, strictly increasing.
   */
  lemma AcademicKeywordsFacts(lib: Stdlib, text: string) returns (idx: seq<nat>)
    ensures var r := AcademicKeywordsIn(lib, text);
      (forall kw :: kw in r <==> kw in AcademicKeywords && HasWholeWord(lib, Lower(text), kw))
      && Distinct(r)
      && |idx| == |r|
      && (forall i :: 0 <= i < |r| ==> idx[i] < |AcademicKeywords| && r[i] == AcademicKeywords[idx[i]])
      && (forall i, j :: 0 <= i < j < |r| ==> idx[i] < idx[j])
  {
    var t := Lower(text);
    var r := AcademicKeywordsIn(lib, text);
    forall kw
      ensures kw in r <==> kw in AcademicKeywords && HasWholeWord(lib, t, kw)
    {
      KeywordsMembership(lib, t, AcademicKeywords, |AcademicKeywords|, kw);
      assert AcademicKeywords[..|AcademicKeywords|] == AcademicKeywords;
    }
    AcademicKeywordsDistinct();
    KeywordsDistinct(lib, t, AcademicKeywords, |AcademicKeywords|);
    idx := KeywordsInTableOrder(lib, t, AcademicKeywords, |AcademicKeywords|);
  }

  /** A keyword glued to a word character on its left is not a whole-word occurrence there. */
  lemma GluedKeywordNotWhole(lib: Stdlib, t: string, kw: string, i: nat)
    requires 0 < i && OccursAt(t, kw, i) && |kw| > 0
    requires lib.isWordChar(t[i - 1]) && lib.isWordChar(kw[0])
    ensures !WholeWordAt(lib, t, kw, i)
  {
    assert t[i] == kw[0];
  }

  // ---------------------------------------------------- indicator lemmas

  /** No indicator matches exactly when none of the first `k` patterns is found. */
  lemma {:induction false} MatchingZero(engine: Engine, t: string, table: seq<(string, string)>, k: nat)
    requires k <= |table|
    ensures MatchingUpTo(engine, t, table, k) == 0 <==> forall j :: 0 <= j < k ==> !engine.Search(table[j].1, t)
  {
    if k > 0 {
      MatchingZero(engine, t, table, k - 1);
    }
  }

  /**
   * The indicator score is `10 * k / 6` for the number `k <= 6` of matching
   * categories: it lies in [0, 10], takes one of seven values, and is 0 exactly
   * when no category matches.
   */
  lemma IndicatorsFacts(engine: Engine, text: string)
    ensures var r := IndicatorsScore(engine, text);
      var k := MatchingUpTo(engine, Lower(text), IndicatorTable, |IndicatorTable|);
      k <= 6 && r == k as real * 10.0 / 6.0
      && 0.0 <= r <= 10.0
      && (r == 0.0 <==> forall j :: 0 <= j < |IndicatorTable| ==> !engine.Search(IndicatorTable[j].1, Lower(text)))
  {
    MatchingZero(engine, Lower(text), IndicatorTable, |IndicatorTable|);
  }

  // ------------------------------------------------------- header lemmas

  /** The number of the three checks that passed. */
  function Passes(headers: map<string, string>): nat {
    var auth := Lower(AuthResults(headers));
    if headers == map[] then 0
    else (if Contains(auth, "spf=pass") then 1 else 0) + (if Contains(auth, "dkim=pass") then 1 else 0)
         + (if Contains(auth, "dmarc=pass") then 1 else 0)
  }

  /**
   * `header_risk` is `1 - n / 3` for the number `n` of SPF, DKIM and DMARC passes
   * reported: it lies in [0, 1], is 1 for an empty header map, and 0 exactly when
   * all three passed.
   */
  lemma HeaderRiskFacts(headers: map<string, string>)
    ensures var r := HeaderRisk(headers);
      r == 1.0 - Passes(headers) as real / 3.0
      && 0.0 <= r <= 1.0
      && (headers == map[] ==> r == 1.0)
      && (r == 0.0 <==> Passes(headers) == 3)
  {
  }

  // ---------------------------------------------------------- URL lemmas

  /** The URL flag is one of 0, 0.7 and 1. */
  lemma CoarseRiskValues(flags: seq<UrlFlags>)
    ensures CoarseRiskOf(flags) in {0.0, 0.7, 1.0}
  {
  }

  /** The URL flag depends only on which flags occur, not on the order the URLs are visited in. */
  lemma CoarseRiskOrderFree(a: seq<UrlFlags>, b: seq<UrlFlags>)
    requires forall f :: f in a <==> f in b
    ensures CoarseRiskOf(a) == CoarseRiskOf(b)
  {
    SameFlagsSameExists(a, b, true);
    SameFlagsSameExists(b, a, true);
    SameFlagsSameExists(a, b, false);
    SameFlagsSameExists(b, a, false);
  }

  lemma SameFlagsSameExists(a: seq<UrlFlags>, b: seq<UrlFlags>, strong: bool)
    requires forall f :: f in a ==> f in b
    ensures (exists i :: 0 <= i < |a| && (if strong then a[i].strong else a[i].path))
        ==> (exists j :: 0 <= j < |b| && (if strong then b[j].strong else b[j].path))
  {
    if exists i :: 0 <= i < |a| && (if strong then a[i].strong else a[i].path) {
      var i :| 0 <= i < |a| && (if strong then a[i].strong else a[i].path);
      assert a[i] in b;
    }
  }

  // ------------------------------------------------------ ensemble lemmas

  /** Every probability a model answered lies in [0, 1]. */
  predicate InUnit(p: Option<real>) { p.Some? ==> 0.0 <= p.value <= 1.0 }

  predicate ScoresInRange(s: Scores) {
    (s.pipeline.Some? ==> InUnit(s.pipeline.value)) && InUnit(s.logistic) && InUnit(s.nb) && InUnit(s.svm)
  }

  lemma {:induction false} SumBounds(xs: seq<real>)
    requires forall i :: 0 <= i < |xs| ==> 0.0 <= xs[i] <= 1.0
    ensures 0.0 <= Sum(xs) <= |xs| as real
  {
    if xs != [] {
      SumBounds(xs[1..]);
    }
  }

  /**
   * A pipeline answer other than 0 is used alone; the other classifiers are
   * averaged only when the score is still exactly 0 and there is a vectorizer;
   * with no model at all the score is 0 and no probability is reported; and
   * with probabilities in [0, 1] the score lies in [0, 1].
   */
  lemma EnsembleFacts(s: Scores)
    ensures var (score, probs) := EnsembleOf(s);
      (s.pipeline == None && !s.vectorizer ==> score == 0.0 && probs == [])
      && (forall p :: s.pipeline == Some(Some(p)) && p != 0.0 ==> score == p && probs == [("pipeline", p)])
      && ((s.logistic == None && s.nb == None && s.svm == None && !(exists p :: s.pipeline == Some(Some(p))))
          ==> score == 0.0 && probs == [])
      && (ScoresInRange(s) ==> 0.0 <= score <= 1.0)
  {
    var (score, probs) := EnsembleOf(s);
    if ScoresInRange(s) && probs != [] && score != (match s.pipeline case Some(Some(p)) => p case _ => 0.0) {
      var xs := Values(probs);
      assert forall i :: 0 <= i < |xs| ==> 0.0 <= xs[i] <= 1.0;
      SumBounds(xs);
      RealMeanWithin(Sum(xs), |xs|, 0.0, 1.0);
    }
  }

  // -------------------------------------------------------- fusion lemmas

  /** The six weights sum to 1: all inputs at their maximum give exactly 1. */
  lemma WeightsSumToOne()
    ensures FinalScore(1.0, 1.0, 10.0, 10.0, 1.0, 1.0) == 1.0
  {
  }

  /** With every input in its range, the fused score lies in [0, 1]. */
  lemma FinalScoreRange(e: real, em: real, ind: real, u: real, h: real, ur: real)
    requires 0.0 <= e <= 1.0 && 0.0 <= em <= 1.0 && 0.0 <= ind <= 10.0 && 0.0 <= u <= 10.0
    requires 0.0 <= h <= 1.0 && 0.0 <= ur <= 1.0
    ensures 0.0 <= FinalScore(e, em, ind, u, h, ur) <= 1.0
  {
  }

  /** Raising any one input never lowers the fused score. */
  lemma FinalScoreMonotone(e: real, em: real, ind: real, u: real, h: real, ur: real,
                           e': real, em': real, ind': real, u': real, h': real, ur': real)
    requires e <= e' && em <= em' && ind <= ind' && u <= u' && h <= h' && ur <= ur'
    ensures FinalScore(e, em, ind, u, h, ur) <= FinalScore(e', em', ind', u', h', ur')
  {
  }

  /** The emotional risk term is the hidden-meaning score over 100, which lies in [0, 1]. */
  lemma EmotionalRiskInRange(engine: Engine, lib: Stdlib, text: string)
    ensures 0.0 <= EmotionalRisk(Emotional.AnalysisOf(engine, lib, Some(text))) <= 1.0
  {
    if text == "" {
      Emotional.EmptyInputGivesEmptyAnalysis(engine, lib, Some(text));
    } else {
      Emotional.AnalysisFacts(engine, lib, text);
    }
  }

  /**
   * The verdict is PHISHING exactly when the fused score reaches 0.45; with the
   * classifier answers in [0, 1] the confidence lies in [0, 1]; and without
   * headers, as the detection route calls it, the header term is 0.05.
   */
  lemma PredictionFacts(engine: Engine, lib: Stdlib, text: string, scores: Scores,
                        headers: map<string, string>, order: seq<string>)
    ensures var r := PredictionOf(engine, lib, text, scores, headers, order);
      (r.classification == Phishing <==> r.confidence >= 0.45)
      && (ScoresInRange(scores) ==> 0.0 <= r.confidence <= 1.0)
      && (headers == map[] ==> HeaderRisk(headers) == 1.0)
  {
    EnsembleFacts(scores);
    EmotionalRiskInRange(engine, lib, text);
    IndicatorsFacts(engine, text);
    UrgencyRange(text);
    HeaderRiskFacts(headers);
    CoarseRiskValues(FlagsOfAll(lib, order));
  }

  /** The prediction does not depend on the iteration order of the extracted URL set. */
  lemma PredictionOrderFree(engine: Engine, lib: Stdlib, text: string, scores: Scores,
                            headers: map<string, string>, a: seq<string>, b: seq<string>)
    requires Enumerates(a, ExtractUrls(DetectorCopy, text)) && Enumerates(b, ExtractUrls(DetectorCopy, text))
    ensures PredictionOf(engine, lib, text, scores, headers, a) == PredictionOf(engine, lib, text, scores, headers, b)
  {
    FlagsOrderFree(lib, a, b, ExtractUrls(DetectorCopy, text));
  }

  /** Two enumerations of the same URL set give the same URL flag. */
  lemma FlagsOrderFree(lib: Stdlib, a: seq<string>, b: seq<string>, urls: set<string>)
    requires Enumerates(a, urls) && Enumerates(b, urls)
    ensures CoarseRiskOf(FlagsOfAll(lib, a)) == CoarseRiskOf(FlagsOfAll(lib, b))
  {
    var fa := FlagsOfAll(lib, a);
    var fb := FlagsOfAll(lib, b);
    forall f
      ensures f in fa <==> f in fb
    {
      if f in fa {
        var i :| 0 <= i < |fa| && fa[i] == f;
        assert a[i] in urls && a[i] in b;
        var j :| 0 <= j < |b| && b[j] == a[i];
        assert fb[j] == f;
      }
      if f in fb {
        var j :| 0 <= j < |fb| && fb[j] == f;
        assert b[j] in urls && b[j] in a;
        var i :| 0 <= i < |a| && a[i] == b[j];
        assert fa[i] == f;
      }
    }
    CoarseRiskOrderFree(fa, fb);
  }
}
