/**
 * `word_level_analysis` in `app/detector.py`: the text is split into tokens by the
 * engine's token pattern, and each token gets one record of heuristic flags plus,
 * when a model bundle is given, the probabilities the models answer for it.
 */
module WordAnalysis {
  import opened Wrappers
  import opened Strings
  import opened Numeric
  import opened Oracles
  import opened Predictor

  /** The token pattern: runs of letters, digits and `@ . / : % + - '` between word boundaries. */
  const TokenPattern: string := "\\b[0-9A-Za-z@./:%+\\-']+\\b"

  /** The smaller urgency set the per-word check uses. */
  const WordUrgencyKeys: set<string> :=
    {"urgent", "immediate", "asap", "deadline", "expires", "act", "now", "hurry", "immediately", "today", "must"}

  /** One record per token. */
  datatype WordInfo = WordInfo(
    token: string,
    lower: string,
    isUrl: bool,
    isEmail: bool,
    isAcademicKw: bool,
    indicatorMatches: seq<string>,
    urgency: bool,
    containsDigits: bool,
    modelProb: Option<real>,
    modelProbs: seq<(string, real)>)

  /** `re.match(r'^https?://', tok, re.IGNORECASE)` or a case-sensitive `www.` prefix. */
  predicate IsUrlToken(tok: string) {
    StartsWith(Lower(tok), "http://") || StartsWith(Lower(tok), "https://") || StartsWith(tok, "www.")
  }

  /** The class `[\w\.-]`. */
  predicate EmailChar(lib: Stdlib, c: char) {
    lib.isWordChar(c) || c == '.' || c == '-'
  }

  predicate AsciiLetter(c: char) {
    'a' <= c <= 'z' || 'A' <= c <= 'Z'
  }

  /**
   * `re.match(r'[\w\.-]+@[\w\.-]+\.[a-zA-Z]{2,}', tok)`: some prefix of the token is a
   * non-empty local part, '@', a non-empty domain part, a dot and two ASCII letters
   * (the match is anchored at the start only, so anything may follow).
   */
  predicate IsEmailToken(lib: Stdlib, tok: string) {
    exists at: nat, dot: nat {:trigger tok[at], tok[dot]} ::
      0 < at && at + 1 < dot && dot + 3 <= |tok|
      && tok[at] == '@' && tok[dot] == '.'
      && (forall i :: 0 <= i < at ==> EmailChar(lib, tok[i]))
      && (forall i :: at < i < dot ==> EmailChar(lib, tok[i]))
      && AsciiLetter(tok[dot + 1]) && AsciiLetter(tok[dot + 2])
  }

  /** `low in (kw.lower() for kw in ACADEMIC_KEYWORDS)`. */
  predicate IsAcademicToken(low: string) {
    exists j :: 0 <= j < |AcademicKeywords| && Lower(AcademicKeywords[j]) == low
  }

  /** `any(uk == low or uk in low for uk in urgency_keys)`. */
  predicate IsUrgentToken(low: string) {
    exists uk :: uk in WordUrgencyKeys && Contains(low, uk)
  }

  /** `any(ch.isdigit() for ch in tok)`. */
  predicate HasDigit(lib: Stdlib, tok: string) {
    exists i :: 0 <= i < |tok| && lib.isDigit(tok[i])
  }

  /**
   * Names of the first `k` indicators whose pattern matches `low`, in table order.
   * A pattern that fails to compile is skipped, as the per-pattern `try` does.
   */
  function IndicatorNamesUpTo(engine: Engine, low: string, table: seq<(string, string)>, k: nat): (r: seq<string>)
    requires k <= |table|
    ensures |r| <= k
  {
    if k == 0 then []
    else
      var rest := IndicatorNamesUpTo(engine, low, table, k - 1);
      if engine.compiles(table[k - 1].1) && engine.Search(table[k - 1].1, low) then rest + [table[k - 1].0] else rest
  }

  /**
   * `(model_prob, model_probs)` for one token: the pipeline's answer when it gave
   * one; otherwise, with a vectorizer, the mean of the classifiers that answered
   * (none left `model_prob` unset); otherwise nothing.
   */
  function TokenProbsOf(s: Scores): (Option<real>, seq<(string, real)>) {
    match s.pipeline
    case Some(Some(p)) => (Some(p), [("pipeline", p)])
    case _ =>
      if s.vectorizer then
        var probs := Entry("logistic", s.logistic) + Entry("nb", s.nb) + Entry("svm", s.svm);
        (if probs == [] then None else Some(Sum(Values(probs)) / |probs| as real), probs)
      else (None, [])
  }

  /** The record for one token; `bundle` gives what the models answer for a token, `None` when no bundle is passed. */
  function WordInfoOf(engine: Engine, lib: Stdlib, bundle: Option<string -> Scores>, tok: string): WordInfo {
    var low := Lower(tok);
    var (prob, probs) := match bundle case None => (None, []) case Some(score) => TokenProbsOf(score(tok));
    WordInfo(tok, low, IsUrlToken(tok), IsEmailToken(lib, tok), IsAcademicToken(low),
             IndicatorNamesUpTo(engine, low, IndicatorTable, |IndicatorTable|), IsUrgentToken(low),
             HasDigit(lib, tok), prob, probs)
  }

  /** What `word_level_analysis` returns: one record per token of the text, in order. */
  function WordLevel(engine: Engine, lib: Stdlib, bundle: Option<string -> Scores>, text: string): seq<WordInfo> {
    var tokens := engine.findall(TokenPattern, text);
    seq(|tokens|, i requires 0 <= i < |tokens| => WordInfoOf(engine, lib, bundle, tokens[i]))
  }

  // ------------------------------------------------------------- methods

  /** The per-pattern loop, appending the name of each indicator that matches. */
  method MatchIndicators(engine: Engine, low: string, table: seq<(string, string)>) returns (names: seq<string>)
    ensures names == IndicatorNamesUpTo(engine, low, table, |table|)
  {
    names := [];
    var i := 0;
    while i < |table|
      invariant i <= |table|
      invariant names == IndicatorNamesUpTo(engine, low, table, i)
    {
      var (name, pattern) := table[i];
      if engine.compiles(pattern) && engine.Search(pattern, low) {
        names := names + [name];
      }
      i := i + 1;
    }
  }

  /** The per-token model probe: the pipeline first, then the classifiers with the vectorizer. */
  method ProbeToken(s: Scores) returns (modelProb: Option<real>, modelProbs: seq<(string, real)>)
    ensures (modelProb, modelProbs) == TokenProbsOf(s)
  {
    modelProb := None;
    modelProbs := [];
    if s.pipeline.Some? && s.pipeline.value.Some? {
      var prob := s.pipeline.value.value;
      modelProb := Some(prob);
      modelProbs := [("pipeline", prob)];
    }
    if modelProb == None && s.vectorizer {
      var probs: seq<real> := [];
      if s.logistic.Some? {
        modelProbs := modelProbs + [("logistic", s.logistic.value)];
        probs := probs + [s.logistic.value];
      }
      if s.nb.Some? {
        modelProbs := modelProbs + [("nb", s.nb.value)];
        probs := probs + [s.nb.value];
      }
      if s.svm.Some? {
        modelProbs := modelProbs + [("svm", s.svm.value)];
        probs := probs + [s.svm.value];
      }
      assert probs == Values(modelProbs);
      assert modelProbs == TokenProbsOf(s).1;
      if probs != [] {
        modelProb := Some(Sum(probs) / |probs| as real);
      }
    }
  }

  method AnalyzeToken(engine: Engine, lib: Stdlib, bundle: Option<string -> Scores>, tok: string)
    returns (info: WordInfo)
    ensures info == WordInfoOf(engine, lib, bundle, tok)
  {
    var low := Lower(tok);
    var matches := MatchIndicators(engine, low, IndicatorTable);
    var modelProb: Option<real> := None;
    var modelProbs: seq<(string, real)> := [];
    if bundle.Some? {
      modelProb, modelProbs := ProbeToken(bundle.value(tok));
    }
    info := WordInfo(tok, low, IsUrlToken(tok), IsEmailToken(lib, tok), IsAcademicToken(low), matches,
                     IsUrgentToken(low), HasDigit(lib, tok), modelProb, modelProbs);
  }

  method WordLevelAnalysis(engine: Engine, lib: Stdlib, bundle: Option<string -> Scores>, text: string)
    returns (wordInfo: seq<WordInfo>)
    ensures wordInfo == WordLevel(engine, lib, bundle, text)
  {
    var tokens := engine.findall(TokenPattern, text);
    wordInfo := [];
    var i := 0;
    while i < |tokens|
      invariant i <= |tokens|
      invariant |wordInfo| == i
      invariant forall j :: 0 <= j < i ==> wordInfo[j] == WordInfoOf(engine, lib, bundle, tokens[j])
    {
      var info := AnalyzeToken(engine, lib, bundle, tokens[i]);
      wordInfo := wordInfo + [info];
      i := i + 1;
    }
  }

  // -------------------------------------------------------------- lemmas

  /** One record per token, in token order, each carrying its token and the token lowercased. */
  lemma WordLevelShape(engine: Engine, lib: Stdlib, bundle: Option<string -> Scores>, text: string)
    ensures var tokens := engine.findall(TokenPattern, text);
      var r := WordLevel(engine, lib, bundle, text);
      |r| == |tokens| && forall i :: 0 <= i < |r| ==> r[i].token == tokens[i] && r[i].lower == Lower(tokens[i])
  {
  }

  /** Without a bundle no token gets a probability. */
  lemma NoBundleNoProbs(engine: Engine, lib: Stdlib, text: string)
    ensures forall w :: w in WordLevel(engine, lib, None, text) ==> w.modelProb == None && w.modelProbs == []
  {
  }

  /**
   * A token gets a probability exactly when some model answered for it, and with
   * answers in [0, 1] that probability lies in [0, 1].
   */
  lemma TokenProbsFacts(s: Scores)
    ensures var (prob, probs) := TokenProbsOf(s);
      (prob.Some? <==> probs != [])
      && (ScoresInRange(s) && prob.Some? ==> 0.0 <= prob.value <= 1.0)
  {
    var (prob, probs) := TokenProbsOf(s);
    if ScoresInRange(s) && prob.Some? && !(s.pipeline.Some? && s.pipeline.value.Some?) {
      var xs := Values(probs);
      assert forall i :: 0 <= i < |xs| ==> 0.0 <= xs[i] <= 1.0;
      SumBounds(xs);
      RealMeanWithin(Sum(xs), |xs|, 0.0, 1.0);
    }
  }

  lemma AcademicKeywordsLowered()
    ensures forall j :: 0 <= j < |AcademicKeywords| ==> IsLowered(AcademicKeywords[j])
  {
  }

  /** `is_academic_kw` holds exactly when the lowercased token is an entry of the academic-keyword table. */
  lemma AcademicTokenIff(tok: string)
    ensures IsAcademicToken(Lower(tok)) <==> Lower(tok) in AcademicKeywords
  {
    AcademicKeywordsLowered();
    forall j | 0 <= j < |AcademicKeywords|
      ensures Lower(AcademicKeywords[j]) == AcademicKeywords[j]
    {
      LowerOfLowered(AcademicKeywords[j]);
    }
  }

  /** The urgency flag is a substring test: "contact" counts because it contains "act". */
  lemma ContactIsUrgent()
    ensures IsUrgentToken("contact")
  {
    assert "contact"[4..7] == "act";
    assert OccursAt("contact", "act", 4);
    assert "act" in WordUrgencyKeys;
  }

  /** A token flagged as an e-mail holds an '@' and has at least six characters. */
  lemma EmailShape(lib: Stdlib, tok: string)
    requires IsEmailToken(lib, tok)
    ensures '@' in tok && |tok| >= 6
  {
    var at: nat, dot: nat :| 0 < at && at + 1 < dot && dot + 3 <= |tok| && tok[at] == '@' && tok[dot] == '.';
  }

  /** A local part, '@', a domain part, a dot and two letters make an e-mail token. */
  lemma ShortEmail(lib: Stdlib)
    requires lib.isWordChar('a') && lib.isWordChar('b')
    ensures IsEmailToken(lib, "a@b.cd")
  {
    var tok := "a@b.cd";
    assert 0 < 1 && 1 + 1 < 3 && 3 + 3 <= |tok| && tok[1] == '@' && tok[3] == '.';
    assert forall i :: 0 <= i < 1 ==> EmailChar(lib, tok[i]);
    assert forall i :: 1 < i < 3 ==> EmailChar(lib, tok[i]);
  }

  /**
   * The indicator names are table names in table order: each is the name at a
   * strictly increasing index whose pattern compiles and matches.
   */
  lemma {:induction false} IndicatorNamesInOrder(engine: Engine, low: string, table: seq<(string, string)>, k: nat)
    returns (idx: seq<nat>)
    requires k <= |table|
    ensures var r := IndicatorNamesUpTo(engine, low, table, k);
      |idx| == |r|
      && (forall i :: 0 <= i < |r| ==>
            idx[i] < k && r[i] == table[idx[i]].0
            && engine.compiles(table[idx[i]].1) && engine.Search(table[idx[i]].1, low))
      && (forall i, j :: 0 <= i < j < |r| ==> idx[i] < idx[j])
  {
    if k == 0 {
      idx := [];
    } else {
      idx := IndicatorNamesInOrder(engine, low, table, k - 1);
      if engine.compiles(table[k - 1].1) && engine.Search(table[k - 1].1, low) {
        idx := idx + [k - 1];
      }
    }
  }

  /** Every indicator whose pattern compiles and matches is listed. */
  lemma {:induction false} IndicatorNamesComplete(engine: Engine, low: string, table: seq<(string, string)>, k: nat, j: nat)
    requires j < k <= |table|
    requires engine.compiles(table[j].1) && engine.Search(table[j].1, low)
    ensures table[j].0 in IndicatorNamesUpTo(engine, low, table, k)
  {
    if j < k - 1 {
      IndicatorNamesComplete(engine, low, table, k - 1, j);
    }
  }
}
