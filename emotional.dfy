/**
 * `app/utils/emotional_analyzer.py`: six weighted categories of emotional-marker
 * patterns scored over the lowercased text, a word-list sentiment, and the
 * composite scores, conflict flags, manipulation tier and risk-factor lines built
 * from them, each later step with its own fallback.
 *
 * The patterns are searched by the abstract regular-expression engine; the word
 * split `\b\w+\b` is written out over the Unicode database's `\w` class.
 */
module Emotional {
  import opened Wrappers
  import opened Strings
  import opened Numeric
  import opened Oracles

  // ------------------------------------------------------------ the tables

  /** The keys of `EMOTIONAL_PATTERNS`, in dictionary order. */
  datatype Emotion = Urgency | Fear | Greed | Anxiety | Deference | Manipulation
  {
    function Name(): string {
      match this
      case Urgency => "urgency"
      case Fear => "fear"
      case Greed => "greed"
      case Anxiety => "anxiety"
      case Deference => "deference"
      case Manipulation => "manipulation"
    }

    /** The category's `weight`. */
    function Weight(): real {
      match this
      case Urgency => 1.2
      case Fear => 1.3
      case Greed => 1.1
      case Anxiety => 1.15
      case Deference => 0.9
      case Manipulation => 1.1
    }

    /** The category's `(pattern, intensity)` pairs, in order. */
    function Patterns(): seq<PatternEntry> {
      match this
      case Urgency => [
        (PatternText(Urgency, 0), 8), (PatternText(Urgency, 1), 7), (PatternText(Urgency, 2), 6),
        (PatternText(Urgency, 3), 5), (PatternText(Urgency, 4), 7), (PatternText(Urgency, 5), 9)]
      case Fear => [
        (PatternText(Fear, 0), 9), (PatternText(Fear, 1), 8), (PatternText(Fear, 2), 8),
        (PatternText(Fear, 3), 9), (PatternText(Fear, 4), 8), (PatternText(Fear, 5), 7),
        (PatternText(Fear, 6), 6)]
      case Greed => [
        (PatternText(Greed, 0), 7), (PatternText(Greed, 1), 5), (PatternText(Greed, 2), 4),
        (PatternText(Greed, 3), 6), (PatternText(Greed, 4), 6), (PatternText(Greed, 5), 7),
        (PatternText(Greed, 6), 5), (PatternText(Greed, 7), 8)]
      case Anxiety => [
        (PatternText(Anxiety, 0), 8), (PatternText(Anxiety, 1), 7), (PatternText(Anxiety, 2), 8),
        (PatternText(Anxiety, 3), 6), (PatternText(Anxiety, 4), 5), (PatternText(Anxiety, 5), 7),
        (PatternText(Anxiety, 6), 4)]
      case Deference => [
        (PatternText(Deference, 0), 6), (PatternText(Deference, 1), 5), (PatternText(Deference, 2), 4),
        (PatternText(Deference, 3), 5), (PatternText(Deference, 4), 4), (PatternText(Deference, 5), 5)]
      case Manipulation => [
        (PatternText(Manipulation, 0), 7), (PatternText(Manipulation, 1), 7), (PatternText(Manipulation, 2), 6),
        (PatternText(Manipulation, 3), 5), (PatternText(Manipulation, 4), 4), (PatternText(Manipulation, 5), 5)]
    }
  }

  /**
   * The text of pattern `k` of category `e`. Only the indices `Patterns` uses have a
   * pattern; any other index is given the empty text.
   */
  function PatternText(e: Emotion, k: nat): string {
    match e
    case Urgency =>
      if k == 0 then "\\b(urgent|immediately|asap|right\\s+now|act\\s+now|hurry)\\b"
      else if k == 1 then "\\b(time\\s+sensitive|deadline|expires?|expiring|limited\\s+time)\\b"
      else if k == 2 then "\\b(today|tonight|within\\s+\\d+\\s+(hours?|minutes?))\\b"
      else if k == 3 then "\\b(quick(ly)?|fast|instant(ly)?|prompt(ly)?)\\b"
      else if k == 4 then "\\b(don\\'?t\\s+wait|can\\'?t\\s+wait|won\\'?t\\s+last)\\b"
      else if k == 5 then "\\b(final\\s+(notice|warning|chance|reminder))\\b"
      else ""
    case Fear =>
      if k == 0 then "\\b(suspend(ed)?|deactivat(e|ed)|locked|blocked|disabled)\\b"
      else if k == 1 then "\\b(unauthorized|unusual|suspicious|illegal)\\s+(activity|access|login|transaction)\\b"
      else if k == 2 then "\\b(security\\s+(alert|breach|issue|warning|threat))\\b"
      else if k == 3 then "\\b(compromise(d)?|hack(ed)?|vulnerab(le|ility))\\b"
      else if k == 4 then "\\b(lose|lost|forfeit|cancel(led)?)\\s+(access|account|eligibility|funds?)\\b"
      else if k == 5 then "\\b(consequence|penalty|fine|legal\\s+action|law\\s+enforcement)\\b"
      else if k == 6 then "\\b(danger|risk|threat|warning)\\b"
      else ""
    case Greed =>
      if k == 0 then "\\b(won|winner|winning|prize|reward|bonus)\\b"
      else if k == 1 then "\\b(free|complimentary|no\\s+cost|zero\\s+cost)\\b"
      else if k == 2 then "\\b(discount|save|savings|deal|offer)\\b"
      else if k == 3 then "\\b(cash|money|\\$\\d+|refund|reimbursement)\\b"
      else if k == 4 then "\\b(grant|scholarship|award|approved)\\b"
      else if k == 5 then "\\b(claim|redeem|collect)\\s+(your|now)\\b"
      else if k == 6 then "\\b(limited\\s+offer|exclusive|special\\s+offer)\\b"
      else if k == 7 then "\\b(congratulations?|you\\'?ve\\s+been\\s+selected)\\b"
      else ""
    case Anxiety =>
      if k == 0 then "\\b(verify|confirm|validate|authenticate)\\s+(your|account|identity|credentials)\\b"
      else if k == 1 then "\\b(update|provide|enter|submit)\\s+(your|password|details|information)\\b"
      else if k == 2 then "\\b(action\\s+required|immediate\\s+action|must\\s+act)\\b"
      else if k == 3 then "\\b(error|problem|issue|failure)\\b"
      else if k == 4 then "\\b(unable\\s+to|failed\\s+to|could\\s+not)\\b"
      else if k == 5 then "\\b(attention\\s+required|requires?\\s+your\\s+attention)\\b"
      else if k == 6 then "\\b(review|check)\\s+(your|the)\\b"
      else ""
    case Deference =>
      if k == 0 then "\\b(dear\\s+(valued|esteemed|honored|distinguished))\\b"
      else if k == 1 then "\\b(official|authorized|legitimate|verified)\\b"
      else if k == 2 then "\\b(department|office|division|bureau|administration)\\b"
      else if k == 3 then "\\b(notice|notification|alert)\\s+from\\b"
      else if k == 4 then "\\b(on\\s+behalf\\s+of|representing)\\b"
      else if k == 5 then "\\b(compliance|regulation|policy|mandate)\\b"
      else ""
    case Manipulation =>
      if k == 0 then "\\b(click\\s+(here|below|link|now))\\b"
      else if k == 1 then "\\b(do\\s+not|don\\'?t)\\s+(ignore|delay|miss|disregard)\\b"
      else if k == 2 then "\\b(only\\s+you|you\\'?ve\\s+been\\s+chosen)\\b"
      else if k == 3 then "\\b(confidential|secret|private|sensitive)\\b"
      else if k == 4 then "\\b(trust(ed)?|secure|safe|protected)\\b"
      else if k == 5 then "\\b(guarantee(d)?|certain|sure|promise)\\b"
      else ""
  }

  /** The pattern list of each category; the analyzer scores with `EmotionalPatterns`. */
  type PatternTable = Emotion -> seq<PatternEntry>

  /** `EMOTIONAL_PATTERNS[e]['patterns']`. */
  function EmotionalPatterns(e: Emotion): seq<PatternEntry> {
    e.Patterns()
  }

  /** Every intensity in the pattern table lies between 4 and 9. */
  type Intensity = n: nat | 4 <= n <= 9 witness 4

  /** One `(pattern, intensity)` pair of the table. */
  type PatternEntry = (string, Intensity)

  const Emotions: seq<Emotion> := [Urgency, Fear, Greed, Anxiety, Deference, Manipulation]

  /** The patterns are searched with `re.IGNORECASE`, written here as the inline flag. */
  function IgnoreCase(pattern: string): string { "(?i)" + pattern }

  /** `POSITIVE_WORDS`. */
  const PositiveWords: set<string> := {
    "congratulations", "approved", "success", "winner", "selected", "eligible",
    "great", "excellent", "wonderful", "fantastic", "amazing", "perfect",
    "benefit", "opportunity", "advantage", "gain", "profit", "reward"}

  /** `NEGATIVE_WORDS`. */
  const NegativeWords: set<string> := {
    "suspend", "cancel", "terminate", "denied", "rejected", "failed", "error",
    "problem", "issue", "warning", "alert", "danger", "risk", "threat",
    "unauthorized", "illegal", "fraud", "scam", "suspicious", "unusual"}

  // ------------------------------------------------------ category scores

  /** One stored example match. */
  datatype Example = Example(text: string, intensity: nat, patternType: Emotion)

  /** What the pattern loop of one category accumulates: weighted score, match count, examples. */
  datatype Tally = Tally(raw: real, count: nat, examples: seq<Example>)

  /** The examples stored for one pattern: its first three matches. */
  function ExamplesOf(found: seq<string>, intensity: nat, e: Emotion): (r: seq<Example>)
    ensures |r| <= 3 && (|found| <= 3 ==> |r| == |found|)
  {
    var kept := if |found| <= 3 then found else found[..3];
    seq(|kept|, i requires 0 <= i < |kept| => Example(kept[i], intensity, e))
  }

  /** `intensity * len(matches) * weight`: what one pattern's matches add to the raw score. */
  function WeightedScore(intensity: Intensity, matchCount: nat, weight: real): real {
    intensity as real * matchCount as real * weight
  }

  /** One pattern of the loop: skipped when it raises or finds nothing, else its matches are added in. */
  function PatternStep(engine: Engine, prev: Tally, entry: PatternEntry, weight: real, e: Emotion, text: string): Tally {
    var (pattern, intensity) := entry;
    if !engine.compiles(IgnoreCase(pattern)) then prev
    else
      var found := engine.findall(IgnoreCase(pattern), text);
      if found == [] then prev
      else Tally(prev.raw + WeightedScore(intensity, |found|, weight), prev.count + |found|,
                 prev.examples + ExamplesOf(found, intensity, e))
  }

  /** The pattern loop of a category of weight `weight` over its first `k` patterns. */
  function TallyOf(engine: Engine, patterns: seq<PatternEntry>, weight: real, e: Emotion, text: string, k: nat): Tally
    requires k <= |patterns|
  {
    if k == 0 then Tally(0.0, 0, [])
    else PatternStep(engine, TallyOf(engine, patterns, weight, e, text, k - 1), patterns[k - 1], weight, e, text)
  }

  /** The whole pattern loop of category `e`. */
  function CategoryTally(engine: Engine, table: PatternTable, e: Emotion, text: string): Tally {
    TallyOf(engine, table(e), e.Weight(), e, text, |table(e)|)
  }

  /** `min(score / 10, 10) if score > 0 else 0`. */
  function Normalized(raw: real): real {
    if raw > 0.0 then Min(raw / 10.0, 10.0) else 0.0
  }

  /** One entry of `emotional_scores`. */
  datatype CategoryScore = CategoryScore(emotion: Emotion, score: real, count: nat, rawScore: real, detected: seq<Example>)

  /** The entry of category `e`: rounded normalised score, count, rounded raw score, first five examples. */
  function CategoryOf(engine: Engine, table: PatternTable, e: Emotion, text: string): (c: CategoryScore)
    ensures c.emotion == e
  {
    EntryOf(e, CategoryTally(engine, table, e, text))
  }

  /** The entry built from a category's tally. */
  function EntryOf(e: Emotion, t: Tally): CategoryScore {
    CategoryScore(e, Round2(Normalized(t.raw)), t.count, Round2(t.raw),
                  if |t.examples| <= 5 then t.examples else t.examples[..5])
  }

  /** The entries of the first `k` categories, in dictionary order. */
  function CategoriesUpTo(engine: Engine, table: PatternTable, text: string, k: nat): (r: seq<CategoryScore>)
    requires k <= |Emotions|
    ensures |r| == k
  {
    if k == 0 then [] else CategoriesUpTo(engine, table, text, k - 1) + [CategoryOf(engine, table, Emotions[k - 1], text)]
  }

  /** `emotional_scores`: every category, in dictionary order. */
  function AllCategories(engine: Engine, table: PatternTable, text: string): (r: seq<CategoryScore>)
    ensures |r| == |Emotions|
  {
    CategoriesUpTo(engine, table, text, |Emotions|)
  }

  /** `total_matches` after the first `k` categories. */
  function MatchesUpTo(engine: Engine, table: PatternTable, text: string, k: nat): nat
    requires k <= |Emotions|
  {
    if k == 0 then 0 else MatchesUpTo(engine, table, text, k - 1) + CategoryTally(engine, table, Emotions[k - 1], text).count
  }

  /** `total_intensity` after the first `k` categories: the unrounded weighted scores. */
  function IntensityUpTo(engine: Engine, table: PatternTable, text: string, k: nat): real
    requires k <= |Emotions|
  {
    if k == 0 then 0.0 else IntensityUpTo(engine, table, text, k - 1) + CategoryTally(engine, table, Emotions[k - 1], text).raw
  }

  /** The pattern loop of one category, accumulating as the source does. */
  method TallyPatterns(engine: Engine, patterns: seq<PatternEntry>, weight: real, e: Emotion, text: string)
    returns (score: real, count: nat, matches: seq<Example>)
    ensures TallyOf(engine, patterns, weight, e, text, |patterns|) == Tally(score, count, matches)
  {
    score := 0.0;
    count := 0;
    matches := [];
    for k := 0 to |patterns|
      invariant TallyOf(engine, patterns, weight, e, text, k) == Tally(score, count, matches)
    {
      score, count, matches := SearchPattern(engine, score, count, matches, patterns[k], weight, e, text);
    }
  }

  /** The body of the pattern loop: search one pattern and add its weighted matches and first examples. */
  method SearchPattern(engine: Engine, score: real, count: nat, matches: seq<Example>, entry: PatternEntry,
                       weight: real, e: Emotion, text: string)
    returns (score': real, count': nat, matches': seq<Example>)
    ensures Tally(score', count', matches') == PatternStep(engine, Tally(score, count, matches), entry, weight, e, text)
  {
    score', count', matches' := score, count, matches;
    var (pattern, intensity) := entry;
    if engine.compiles(IgnoreCase(pattern)) {
      var found := engine.findall(IgnoreCase(pattern), text);
      if found != [] {
        var matchCount := |found|;
        var weightedScore := intensity as real * matchCount as real * weight;
        score' := score + weightedScore;
        count' := count + matchCount;
        matches' := AppendExamples(matches, found, intensity, e);
      }
    }
  }

  /** The inner loop over `found[:3]`: one example per kept match. */
  method AppendExamples(matches: seq<Example>, found: seq<string>, intensity: nat, e: Emotion)
    returns (r: seq<Example>)
    ensures r == matches + ExamplesOf(found, intensity, e)
  {
    var kept := if |found| <= 3 then found else found[..3];
    r := matches;
    for j := 0 to |kept|
      invariant r == matches + ExamplesOf(found, intensity, e)[..j]
    {
      r := r + [Example(kept[j], intensity, e)];
    }
    assert ExamplesOf(found, intensity, e)[..|kept|] == ExamplesOf(found, intensity, e);
  }

  /** One category's entry of `emotional_scores`, and its unrounded weighted score. */
  method ScoreCategory(engine: Engine, table: PatternTable, e: Emotion, text: string) returns (entry: CategoryScore, weighted: real)
    ensures entry == CategoryOf(engine, table, e, text)
    ensures weighted == CategoryTally(engine, table, e, text).raw && entry.count == CategoryTally(engine, table, e, text).count
  {
    var score, count, matches := TallyPatterns(engine, table(e), e.Weight(), e, text);
    entry := CategoryScore(e, Round2(Normalized(score)), count, Round2(score),
                           if |matches| <= 5 then matches else matches[..5]);
    weighted := score;
  }

  /** The category loop of `analyze_emotional_tone`: fill `emotional_scores` and the two running totals. */
  method ScoreAllCategories(engine: Engine, table: PatternTable, text: string)
    returns (scores: seq<CategoryScore>, totalIntensity: real, totalMatches: nat)
    ensures scores == AllCategories(engine, table, text)
    ensures totalIntensity == IntensityUpTo(engine, table, text, |Emotions|)
    ensures totalMatches == MatchesUpTo(engine, table, text, |Emotions|)
  {
    scores := [];
    totalIntensity := 0.0;
    totalMatches := 0;
    for i := 0 to |Emotions|
      invariant scores == CategoriesUpTo(engine, table, text, i)
      invariant totalIntensity == IntensityUpTo(engine, table, text, i)
      invariant totalMatches == MatchesUpTo(engine, table, text, i)
    {
      scores, totalIntensity, totalMatches := ScoreNextCategory(engine, table, text, i, scores, totalIntensity, totalMatches);
    }
  }

  /** One pass of the category loop: score category `i` and add it to the running results. */
  method ScoreNextCategory(engine: Engine, table: PatternTable, text: string, i: nat, scores: seq<CategoryScore>, intensity: real, matches: nat)
    returns (scores': seq<CategoryScore>, intensity': real, matches': nat)
    requires i < |Emotions|
    requires scores == CategoriesUpTo(engine, table, text, i)
    requires intensity == IntensityUpTo(engine, table, text, i)
    requires matches == MatchesUpTo(engine, table, text, i)
    ensures scores' == CategoriesUpTo(engine, table, text, i + 1)
    ensures intensity' == IntensityUpTo(engine, table, text, i + 1)
    ensures matches' == MatchesUpTo(engine, table, text, i + 1)
  {
    var entry, weighted := ScoreCategory(engine, table, Emotions[i], text);
    UpToStep(engine, table, text, i, scores, intensity, matches, entry, weighted);
    scores' := scores + [entry];
    intensity' := intensity + weighted;
    matches' := matches + entry.count;
  }

  /** The three running results after one more category. */
  lemma UpToStep(engine: Engine, table: PatternTable, text: string, i: nat, scores: seq<CategoryScore>, intensity: real, matches: nat,
                 entry: CategoryScore, weighted: real)
    requires i < |Emotions|
    requires scores == CategoriesUpTo(engine, table, text, i)
    requires intensity == IntensityUpTo(engine, table, text, i)
    requires matches == MatchesUpTo(engine, table, text, i)
    requires entry == CategoryOf(engine, table, Emotions[i], text)
    requires weighted == CategoryTally(engine, table, Emotions[i], text).raw
    requires entry.count == CategoryTally(engine, table, Emotions[i], text).count
    ensures scores + [entry] == CategoriesUpTo(engine, table, text, i + 1)
    ensures intensity + weighted == IntensityUpTo(engine, table, text, i + 1)
    ensures matches + entry.count == MatchesUpTo(engine, table, text, i + 1)
  {
    CategoriesStep(engine, table, text, i + 1);
    IntensityStep(engine, table, text, i + 1);
    MatchesStep(engine, table, text, i + 1);
  }

  lemma CategoriesStep(engine: Engine, table: PatternTable, text: string, k: nat)
    requires 0 < k <= |Emotions|
    ensures CategoriesUpTo(engine, table, text, k) == CategoriesUpTo(engine, table, text, k - 1) + [CategoryOf(engine, table, Emotions[k - 1], text)]
  {
  }

  lemma IntensityStep(engine: Engine, table: PatternTable, text: string, k: nat)
    requires 0 < k <= |Emotions|
    ensures IntensityUpTo(engine, table, text, k) == IntensityUpTo(engine, table, text, k - 1) + CategoryTally(engine, table, Emotions[k - 1], text).raw
  {
  }

  lemma MatchesStep(engine: Engine, table: PatternTable, text: string, k: nat)
    requires 0 < k <= |Emotions|
    ensures MatchesUpTo(engine, table, text, k) == MatchesUpTo(engine, table, text, k - 1) + CategoryTally(engine, table, Emotions[k - 1], text).count
  {
  }

  // ------------------------------------------------------------- sentiment

  /** End of the run of `\w` characters that starts at `i`. */
  function WordEnd(lib: Stdlib, s: string, i: nat): (j: nat)
    requires i <= |s|
    ensures i <= j <= |s|
    ensures i < |s| && lib.isWordChar(s[i]) ==> i < j
    ensures forall k :: i <= k < j ==> lib.isWordChar(s[k])
    ensures j < |s| ==> !lib.isWordChar(s[j])
    decreases |s| - i
  {
    if i < |s| && lib.isWordChar(s[i]) then WordEnd(lib, s, i + 1) else i
  }

  /** `re.findall(r'\b\w+\b', s[i..])`: the maximal runs of word characters, in order. */
  function WordsFrom(lib: Stdlib, s: string, i: nat): seq<string>
    requires i <= |s|
    decreases |s| - i
  {
    if i == |s| then []
    else if !lib.isWordChar(s[i]) then WordsFrom(lib, s, i + 1)
    else [s[i..WordEnd(lib, s, i)]] + WordsFrom(lib, s, WordEnd(lib, s, i))
  }

  /** How many of `words` are in `table`. */
  function CountIn(words: seq<string>, table: set<string>): (n: nat)
    ensures n <= |words|
  {
    if words == [] then 0 else (if words[0] in table then 1 else 0) + CountIn(words[1..], table)
  }

  datatype Label = Positive | Negative | Neutral

  /** The dictionary `calculate_sentiment` returns. */
  datatype Sentiment = Sentiment(
    polarity: real, tone: Label, positiveCount: nat, negativeCount: nat, mixed: bool, sentimentWords: nat)

  /** `calculate_sentiment(text)`: polarity from the word-list counts, its label from the unrounded value. */
  function SentimentOf(lib: Stdlib, text: string): Sentiment {
    var words := WordsFrom(lib, Lower(text), 0);
    SentimentFromCounts(CountIn(words, PositiveWords), CountIn(words, NegativeWords))
  }

  /** The sentiment of a text with `pos` positive and `neg` negative words. */
  function SentimentFromCounts(pos: nat, neg: nat): Sentiment {
    var total := pos + neg;
    var polarity := if total == 0 then 0.0 else (pos as real - neg as real) / total as real;
    var tone := if total == 0 then Neutral else if polarity > 0.3 then Positive else if polarity < -0.3 then Negative else Neutral;
    Sentiment(Round3(polarity), tone, pos, neg, pos > 0 && neg > 0, total)
  }

  // ------------------------------------------------------ composite scores

  /** `emotional_scores[e]['score']`, or `None` where the key is missing (a `KeyError`). */
  function ScoreOf(scores: seq<CategoryScore>, e: Emotion): Option<real> {
    if scores == [] then None
    else if scores[0].emotion == e then Some(scores[0].score)
    else ScoreOf(scores[1..], e)
  }

  /** The sum of every category's score. */
  function EmotionSum(scores: seq<CategoryScore>): real {
    if scores == [] then 0.0 else scores[0].score + EmotionSum(scores[1..])
  }

  /** One term of `critical_score`'s sum: 1.5 times the score, when the category is there. */
  function CriticalPart(scores: seq<CategoryScore>, e: Emotion): real {
    match ScoreOf(scores, e)
    case None => 0.0
    case Some(x) => x * 1.5
  }

  /**
   * `combo_bonus`: 20 when urgency, fear and anxiety all score above 5.  The test
   * short-circuits, so a missing key raises only when it is reached.
   */
  function ComboBonus(scores: seq<CategoryScore>): Option<real> {
    match ScoreOf(scores, Urgency)
    case None => None
    case Some(u) =>
      if u <= 5.0 then Some(0.0)
      else
        match ScoreOf(scores, Fear)
        case None => None
        case Some(f) =>
          if f <= 5.0 then Some(0.0)
          else
            match ScoreOf(scores, Anxiety)
            case None => None
            case Some(a) => Some(if a > 5.0 then 20.0 else 0.0)
  }

  /** The sentiment penalty: 15 for mixed sentiment, 10 more for positive framing over more than two negative words. */
  function SentimentPenalty(s: Sentiment): real {
    (if s.mixed then 15.0 else 0.0) + (if s.tone == Positive && s.negativeCount > 2 then 10.0 else 0.0)
  }

  /** `calculate_hidden_meaning_score`; `None` where it raises. */
  function HiddenMeaning(scores: seq<CategoryScore>, s: Sentiment): Option<real> {
    var avg := if scores == [] then 0.0 else EmotionSum(scores) / |scores| as real;
    var critical := (CriticalPart(scores, Urgency) + CriticalPart(scores, Fear) + CriticalPart(scores, Anxiety)) / 3.0;
    match ComboBonus(scores)
    case None => None
    case Some(combo) =>
      var base := (avg * 3.0 + critical * 4.0) / 7.0;
      Some(Round2(Min(base * 10.0 + SentimentPenalty(s) + combo, 100.0)))
  }

  /** The four conflicts `detect_emotional_conflict` can raise, in the order it checks them. */
  datatype ConflictKind = PositiveWithFear | PositiveWithUrgency | GreedFearConflict | DeferenceUrgencyConflict
  {
    function Name(): string {
      match this
      case PositiveWithFear => "positive_with_fear"
      case PositiveWithUrgency => "positive_with_urgency"
      case GreedFearConflict => "greed_fear_conflict"
      case DeferenceUrgencyConflict => "deference_urgency_conflict"
    }

    /** The text `_describe_conflicts` gives it. */
    function Description(): string {
      match this
      case PositiveWithFear => "Positive messaging with fear tactics"
      case PositiveWithUrgency => "Positive framing with urgent pressure"
      case GreedFearConflict => "Reward promises combined with threats"
      case DeferenceUrgencyConflict => "Formal tone with inappropriate urgency"
    }
  }

  function Descriptions(conflicts: seq<ConflictKind>): seq<string> {
    seq(|conflicts|, i requires 0 <= i < |conflicts| => conflicts[i].Description())
  }

  /** The score of a category, 0 where it is missing (used only where the lookup is known to succeed). */
  function Get(scores: seq<CategoryScore>, e: Emotion): real { ScoreOf(scores, e).GetOr(0.0) }

  predicate Has(scores: seq<CategoryScore>, e: Emotion) { ScoreOf(scores, e).Some? }

  /** Every lookup `detect_emotional_conflict` makes finds its key. */
  predicate ConflictLookupsSucceed(scores: seq<CategoryScore>, s: Sentiment) {
    (s.tone == Positive ==> Has(scores, Fear) && Has(scores, Urgency))
    && Has(scores, Greed) && (Get(scores, Greed) > 5.0 ==> Has(scores, Fear))
    && Has(scores, Deference) && (Get(scores, Deference) > 4.0 ==> Has(scores, Urgency))
  }

  /** Whether conflict `k` is raised, by its own condition. */
  predicate Raised(k: ConflictKind, scores: seq<CategoryScore>, s: Sentiment) {
    match k
    case PositiveWithFear => s.tone == Positive && Get(scores, Fear) > 4.0
    case PositiveWithUrgency => s.tone == Positive && Get(scores, Urgency) > 6.0
    case GreedFearConflict => Get(scores, Greed) > 5.0 && Get(scores, Fear) > 5.0
    case DeferenceUrgencyConflict => Get(scores, Deference) > 4.0 && Get(scores, Urgency) > 6.0
  }

  const ConflictKinds: seq<ConflictKind> := [PositiveWithFear, PositiveWithUrgency, GreedFearConflict, DeferenceUrgencyConflict]

  function OnlyIf(b: bool, k: ConflictKind): seq<ConflictKind> { if b then [k] else [] }

  /** The conflicts raised: each kind whose condition holds, in checking order; `None` where a lookup raises. */
  function ConflictsOf(scores: seq<CategoryScore>, s: Sentiment): Option<seq<ConflictKind>> {
    if !ConflictLookupsSucceed(scores, s) then None
    else Some(OnlyIf(Raised(PositiveWithFear, scores, s), PositiveWithFear)
              + OnlyIf(Raised(PositiveWithUrgency, scores, s), PositiveWithUrgency)
              + OnlyIf(Raised(GreedFearConflict, scores, s), GreedFearConflict)
              + OnlyIf(Raised(DeferenceUrgencyConflict, scores, s), DeferenceUrgencyConflict))
  }

  /** `detect_emotional_conflict`, appending each conflict as it is checked; `None` on a `KeyError`. */
  method DetectEmotionalConflict(scores: seq<CategoryScore>, s: Sentiment) returns (r: Option<seq<ConflictKind>>)
    ensures r == ConflictsOf(scores, s)
  {
    var conflicts: seq<ConflictKind> := [];
    if s.tone == Positive {
      var fear := ScoreOf(scores, Fear);
      if fear.None? {
        return None;
      }
      if fear.value > 4.0 {
        conflicts := conflicts + [PositiveWithFear];
      }
      var urgency := ScoreOf(scores, Urgency);
      if urgency.None? {
        return None;
      }
      if urgency.value > 6.0 {
        conflicts := conflicts + [PositiveWithUrgency];
      }
    }
    assert conflicts == OnlyIf(Raised(PositiveWithFear, scores, s), PositiveWithFear)
      + OnlyIf(Raised(PositiveWithUrgency, scores, s), PositiveWithUrgency);
    var greed := ScoreOf(scores, Greed);
    if greed.None? {
      return None;
    }
    if greed.value > 5.0 {
      var fear := ScoreOf(scores, Fear);
      if fear.None? {
        return None;
      }
      if fear.value > 5.0 {
        conflicts := conflicts + [GreedFearConflict];
      }
    }
    assert conflicts == OnlyIf(Raised(PositiveWithFear, scores, s), PositiveWithFear)
      + OnlyIf(Raised(PositiveWithUrgency, scores, s), PositiveWithUrgency)
      + OnlyIf(Raised(GreedFearConflict, scores, s), GreedFearConflict);
    var deference := ScoreOf(scores, Deference);
    if deference.None? {
      return None;
    }
    if deference.value > 4.0 {
      var urgency := ScoreOf(scores, Urgency);
      if urgency.None? {
        return None;
      }
      if urgency.value > 6.0 {
        conflicts := conflicts + [DeferenceUrgencyConflict];
      }
    }
    assert ConflictLookupsSucceed(scores, s);
    assert conflicts == OnlyIf(Raised(PositiveWithFear, scores, s), PositiveWithFear)
      + OnlyIf(Raised(PositiveWithUrgency, scores, s), PositiveWithUrgency)
      + OnlyIf(Raised(GreedFearConflict, scores, s), GreedFearConflict)
      + OnlyIf(Raised(DeferenceUrgencyConflict, scores, s), DeferenceUrgencyConflict);
    return Some(conflicts);
  }

  /** The `emotional_conflict` entry: the conflicts found, or a note where there are none to report. */
  datatype ConflictReport = ConflictReport(conflicts: seq<ConflictKind>) | ConflictNote(note: string)
  {
    function HasConflict(): bool { ConflictReport? && |conflicts| > 0 }

    /** `conflict_score`: 15 per conflict, at most 50. */
    function ConflictScore(): nat
      requires ConflictReport?
    {
      if 15 * |conflicts| <= 50 then 15 * |conflicts| else 50
    }

    function Description(): string {
      match this
      case ConflictReport(c) => Join(Descriptions(c), ", ")
      case ConflictNote(n) => n
    }
  }

  // ---------------------------------------------------- manipulation risk

  datatype Tier = LowTier | MediumTier | HighTier | CriticalTier
  {
    function Name(): string {
      match this
      case LowTier => "low"
      case MediumTier => "medium"
      case HighTier => "high"
      case CriticalTier => "critical"
    }

    function Score(): nat {
      match this
      case LowTier => 20
      case MediumTier => 50
      case HighTier => 70
      case CriticalTier => 90
    }
  }

  /** How many categories score above 6. */
  function HighEmotions(scores: seq<CategoryScore>): (n: nat)
    ensures n <= |scores|
  {
    if scores == [] then 0 else (if scores[0].score > 6.0 then 1 else 0) + HighEmotions(scores[1..])
  }

  /** The ladder of `calculate_manipulation_risk`. */
  function TierOf(high: nat, manipulation: real): Tier {
    if high >= 3 || manipulation > 7.0 then CriticalTier
    else if high >= 2 || manipulation > 5.0 then HighTier
    else if high >= 1 || manipulation > 3.0 then MediumTier
    else LowTier
  }

  /** The `manipulation_risk` entry: a tier, or the note of the empty analysis or the fallback (score 0). */
  datatype ManipulationRisk =
    | ManipulationRisk(tier: Tier, highIntensity: nat, manipulationDetected: bool)
    | RiskNote(level: string, note: string)
  {
    function LevelText(): string {
      match this
      case ManipulationRisk(t, _, _) => t.Name()
      case RiskNote(l, _) => l
    }

    function Score(): nat {
      match this
      case ManipulationRisk(t, _, _) => t.Score()
      case RiskNote(_, _) => 0
    }
  }

  /** `calculate_manipulation_risk`; a missing manipulation entry counts as 0. */
  function ManipulationRiskOf(scores: seq<CategoryScore>): ManipulationRisk {
    var m := ScoreOf(scores, Manipulation).GetOr(0.0);
    ManipulationRisk(TierOf(HighEmotions(scores), m), HighEmotions(scores), m > 4.0)
  }

  // --------------------------------------------------------- risk factors

  /** One line of `generate_risk_factors`. */
  datatype EmotionFactor =
    | HighMarkers(emotion: Emotion, score: real, count: nat)
    | ModerateMarkers(emotion: Emotion, score: real)
    | MixedTone(positive: nat, negative: nat)
    | PositiveFraming
  {
    /** The printed line; `showReal` prints a float as Python's `str` does. */
    function Render(showReal: real -> string): string {
      match this
      case HighMarkers(e, sc, n) =>
        "High " + e.Name() + " indicators detected (score: " + showReal(sc) + "/10, " + NatToString(n) + " instances)"
      case ModerateMarkers(e, sc) => "Moderate " + e.Name() + " patterns found (score: " + showReal(sc) + "/10)"
      case MixedTone(p, n) =>
        "Mixed emotional tone detected (" + NatToString(p) + " positive, " + NatToString(n) + " negative indicators)"
      case PositiveFraming => "Suspicious positive framing with underlying negative elements"
    }
  }

  /** The line a category contributes: High above 6, Moderate above 4, else none. */
  function CategoryFactor(c: CategoryScore): seq<EmotionFactor> {
    if c.score > 6.0 then [HighMarkers(c.emotion, c.score, c.count)]
    else if c.score > 4.0 then [ModerateMarkers(c.emotion, c.score)]
    else []
  }

  /** The category lines of the first `k` entries. */
  function CategoryFactors(scores: seq<CategoryScore>, k: nat): seq<EmotionFactor>
    requires k <= |scores|
  {
    if k == 0 then [] else CategoryFactors(scores, k - 1) + CategoryFactor(scores[k - 1])
  }

  /** The factors: the category lines in dictionary order, then the mixed-tone and framing lines. */
  function RiskFactorsOf(scores: seq<CategoryScore>, s: Sentiment): seq<EmotionFactor> {
    CategoryFactors(scores, |scores|)
    + (if s.mixed then [MixedTone(s.positiveCount, s.negativeCount)] else [])
    + (if s.tone == Positive && s.negativeCount > 2 then [PositiveFraming] else [])
  }

  /** `generate_risk_factors`. */
  method GenerateRiskFactors(scores: seq<CategoryScore>, s: Sentiment) returns (factors: seq<EmotionFactor>)
    ensures factors == RiskFactorsOf(scores, s)
  {
    factors := [];
    for k := 0 to |scores|
      invariant factors == CategoryFactors(scores, k)
    {
      var data := scores[k];
      if data.score > 6.0 {
        factors := factors + [HighMarkers(data.emotion, data.score, data.count)];
      } else if data.score > 4.0 {
        factors := factors + [ModerateMarkers(data.emotion, data.score)];
      }
    }
    if s.mixed {
      factors := factors + [MixedTone(s.positiveCount, s.negativeCount)];
    }
    if s.tone == Positive && s.negativeCount > 2 {
      factors := factors + [PositiveFraming];
    }
  }

  // -------------------------------------------------------- the analysis

  /** The `sentiment` entry: computed, or the four-key neutral record of the empty analysis. */
  datatype SentimentEntry = Measured(sentiment: Sentiment) | BareNeutral

  /** The dictionary `analyze_emotional_tone` returns. */
  datatype Analysis = Analysis(
    scores: seq<CategoryScore>,
    hiddenMeaning: real,
    sentiment: SentimentEntry,
    conflict: ConflictReport,
    manipulation: ManipulationRisk,
    totalMarkers: nat,
    compositeIntensity: real,
    riskFactors: seq<EmotionFactor>)

  /** `_get_empty_analysis()`. */
  function EmptyAnalysis(): Analysis {
    Analysis(seq(|Emotions|, i requires 0 <= i < |Emotions| => CategoryScore(Emotions[i], 0.0, 0, 0.0, [])),
             0.0, BareNeutral, ConflictNote("No emotional markers detected"),
             RiskNote("LOW", "No manipulation detected"), 0, 0.0, [])
  }

  /** Longer texts are cut to this many characters first. */
  const MaxTextLength: nat := 100000

  /** `composite_intensity`: the mean weighted intensity per match, 0 without matches. */
  function Composite(totalIntensity: real, totalMatches: nat): real {
    if totalMatches > 0 then Round2(totalIntensity / totalMatches as real) else 0.0
  }

  /** `analyze_emotional_tone(text)`; `None` stands for an argument that is not a `str`. */
  function AnalysisOf(engine: Engine, lib: Stdlib, input: Option<string>): Analysis {
    match input
    case None => EmptyAnalysis()
    case Some(text) =>
      if text == "" then EmptyAnalysis()
      else
        var lower := Lower(if |text| > MaxTextLength then text[..MaxTextLength] else text);
        Assemble(AllCategories(engine, EmotionalPatterns, lower), SentimentOf(lib, lower),
                 MatchesUpTo(engine, EmotionalPatterns, lower, |Emotions|), IntensityUpTo(engine, EmotionalPatterns, lower, |Emotions|))
  }

  /** The result dictionary built from the category scores, the sentiment and the two totals. */
  function Assemble(scores: seq<CategoryScore>, s: Sentiment, totalMatches: nat, totalIntensity: real): Analysis {
    Analysis(scores, HiddenMeaning(scores, s).GetOr(0.0), Measured(s),
             match ConflictsOf(scores, s)
             case None => ConflictNote("Unable to analyze conflict")
             case Some(c) => ConflictReport(c),
             ManipulationRiskOf(scores), totalMatches, Composite(totalIntensity, totalMatches),
             RiskFactorsOf(scores, s))
  }

  /** `analyze_emotional_tone`: validate, truncate, lowercase, score the categories, then each later step with its fallback. */
  method AnalyzeEmotionalTone(engine: Engine, lib: Stdlib, input: Option<string>) returns (r: Analysis)
    ensures r == AnalysisOf(engine, lib, input)
  {
    if input.None? || input.value == "" {
      return EmptyAnalysis();
    }
    var text := input.value;
    if |text| > MaxTextLength {
      text := text[..MaxTextLength];
    }
    var lower := Lower(text);
    var scores, totalIntensity, totalMatches := ScoreAllCategories(engine, EmotionalPatterns, lower);
    var sentiment := SentimentOf(lib, lower);
    var hidden := HiddenMeaning(scores, sentiment).GetOr(0.0);
    var found := DetectEmotionalConflict(scores, sentiment);
    var conflict := if found.Some? then ConflictReport(found.value) else ConflictNote("Unable to analyze conflict");
    var manipulation := ManipulationRiskOf(scores);
    var factors := GenerateRiskFactors(scores, sentiment);
    var composite := if totalMatches > 0 then Round2(totalIntensity / totalMatches as real) else 0.0;
    r := Analysis(scores, hidden, Measured(sentiment), conflict, manipulation, totalMatches, composite, factors);
  }

  /** The tiers of `get_emotional_summary`. */
  datatype SummaryTier = CriticalSummary | HighSummary | ModerateSummary | LowSummary

  /** The tier for a hidden-meaning score: above 70, above 50, above 30, else low. */
  function SummaryTierOf(score: real): SummaryTier {
    if score > 70.0 then CriticalSummary
    else if score > 50.0 then HighSummary
    else if score > 30.0 then ModerateSummary
    else LowSummary
  }

  /** `get_emotional_summary(analysis)`; `showReal` prints the score as Python does. */
  function EmotionalSummary(a: Analysis, showReal: real -> string): string {
    var tail := " (score: " + showReal(a.hiddenMeaning) + "/100, risk: " + a.manipulation.LevelText() + ")";
    match SummaryTierOf(a.hiddenMeaning)
    case CriticalSummary => "\U{26A0}\U{FE0F} CRITICAL: Strong emotional manipulation detected" + tail
    case HighSummary => "\U{26A0}\U{FE0F} HIGH: Significant emotional manipulation indicators" + tail
    case ModerateSummary => "\U{26A0} MODERATE: Some emotional manipulation patterns detected" + tail
    case LowSummary => "\U{2713} LOW: Minimal emotional manipulation detected" + tail
  }

  // -------------------------------------------------------------- lemmas

  lemma WeightInRange(e: Emotion)
    ensures 0.9 <= e.Weight() <= 1.3
  {
  }

  /**
   * Each match adds between 3.6 and 11.7 (intensity 4..9 times weight 0.9..1.3) to the
   * weighted score, and each pattern stores at most three examples.
   */
  lemma {:induction false} TallyBounds(engine: Engine, patterns: seq<PatternEntry>, weight: real, e: Emotion,
                                       text: string, k: nat)
    requires k <= |patterns| && 0.9 <= weight <= 1.3
    ensures var t := TallyOf(engine, patterns, weight, e, text, k);
      3.6 * t.count as real <= t.raw <= 11.7 * t.count as real && |t.examples| <= 3 * k
  {
    if k > 0 {
      TallyBounds(engine, patterns, weight, e, text, k - 1);
      PatternStepBounds(engine, TallyOf(engine, patterns, weight, e, text, k - 1), patterns[k - 1], weight, e, text);
    }
  }

  /** One pattern keeps the weighted score between 3.6 and 11.7 per match and adds at most three examples. */
  lemma PatternStepBounds(engine: Engine, prev: Tally, entry: PatternEntry, weight: real, e: Emotion, text: string)
    requires 0.9 <= weight <= 1.3 && 3.6 * prev.count as real <= prev.raw <= 11.7 * prev.count as real
    ensures var t := PatternStep(engine, prev, entry, weight, e, text);
      3.6 * t.count as real <= t.raw <= 11.7 * t.count as real && |t.examples| <= |prev.examples| + 3
  {
    var (pattern, intensity) := entry;
    var found := engine.findall(IgnoreCase(pattern), text);
    if engine.compiles(IgnoreCase(pattern)) && found != [] {
      StepBounds(prev.raw, prev.count, intensity, |found|, weight);
    }
  }

  /** An intensity of 4..9 at a weight of 0.9..1.3 contributes 3.6..11.7 per match. */
  lemma WeightedIntensityWithin(x: real, weight: real)
    requires 4.0 <= x <= 9.0 && 0.9 <= weight <= 1.3
    ensures 3.6 <= x * weight <= 11.7
  {
    ScaleWithin(x, 4.0, 9.0, weight);
    assert 4.0 * weight <= x * weight <= 9.0 * weight;
    assert 3.6 <= 4.0 * weight && 9.0 * weight <= 11.7;
  }

  /** `n` matches of one pattern at a weight of 0.9..1.3 add 3.6..11.7 each. */
  lemma WeightedScoreWithin(intensity: Intensity, n: nat, weight: real)
    requires 0.9 <= weight <= 1.3
    ensures 3.6 * n as real <= WeightedScore(intensity, n, weight) <= 11.7 * n as real
  {
    WeightedIntensityWithin(intensity as real, weight);
    ScaleWithin(intensity as real * weight, 3.6, 11.7, n as real);
    Reassociate(intensity as real, n as real, weight);
  }

  lemma Reassociate(a: real, b: real, c: real)
    ensures a * b * c == (a * c) * b
  {
  }

  /** Adding `n` matches of intensity 4..9 at weight 0.9..1.3 keeps the per-match bounds. */
  lemma StepBounds(raw: real, count: nat, intensity: Intensity, n: nat, weight: real)
    requires 0.9 <= weight <= 1.3 && 3.6 * count as real <= raw <= 11.7 * count as real
    ensures 3.6 * (count + n) as real <= raw + WeightedScore(intensity, n, weight) <= 11.7 * (count + n) as real
  {
    WeightedScoreWithin(intensity, n, weight);
  }

  lemma CategoryTallyBounds(engine: Engine, table: PatternTable, e: Emotion, text: string)
    ensures var t := CategoryTally(engine, table, e, text);
      3.6 * t.count as real <= t.raw <= 11.7 * t.count as real
  {
    WeightInRange(e);
    TallyBounds(engine, table(e), e.Weight(), e, text, |table(e)|);
  }

  /**
   * A category's score lies in [0, 10], it keeps at most five examples, and its
   * count is zero exactly when its raw score is.
   */
  lemma CategoryFacts(engine: Engine, table: PatternTable, e: Emotion, text: string)
    ensures var c := CategoryOf(engine, table, e, text);
      0.0 <= c.score <= 10.0 && |c.detected| <= 5 && c.emotion == e
      && (c.count == 0 <==> c.rawScore == 0.0)
  {
    CategoryTallyBounds(engine, table, e, text);
    EntryFacts(e, CategoryTally(engine, table, e, text));
  }

  lemma EntryFacts(e: Emotion, t: Tally)
    requires 3.6 * t.count as real <= t.raw <= 11.7 * t.count as real
    ensures var c := EntryOf(e, t);
      0.0 <= c.score <= 10.0 && |c.detected| <= 5 && c.emotion == e
      && (c.count == 0 <==> c.rawScore == 0.0)
  {
    Round2Within(Normalized(t.raw), 0, 1000);
    if t.count == 0 {
      Round2Within(t.raw, 0, 0);
    }
  }

  /** Every category score of the analysis lies in [0, 10]. */
  predicate ScoresInRange(scores: seq<CategoryScore>) {
    forall i :: 0 <= i < |scores| ==> 0.0 <= scores[i].score <= 10.0
  }

  lemma {:induction false} CategoriesInRange(engine: Engine, table: PatternTable, text: string, k: nat)
    requires k <= |Emotions|
    ensures ScoresInRange(CategoriesUpTo(engine, table, text, k))
  {
    if k > 0 {
      var prev := CategoriesUpTo(engine, table, text, k - 1);
      var c := CategoryOf(engine, table, Emotions[k - 1], text);
      assert ScoresInRange(prev) by {
        CategoriesInRange(engine, table, text, k - 1);
      }
      assert 0.0 <= c.score <= 10.0 by {
        CategoryFacts(engine, table, Emotions[k - 1], text);
      }
      assert ScoresInRange(prev + [c]) by {
        InRangeAppend(prev, c);
      }
      assert CategoriesUpTo(engine, table, text, k) == prev + [c];
    }
  }

  lemma InRangeAppend(scores: seq<CategoryScore>, c: CategoryScore)
    requires ScoresInRange(scores) && 0.0 <= c.score <= 10.0
    ensures ScoresInRange(scores + [c])
  {
  }

  /** Entry `j` of the first `k` categories is the entry of the `j`-th key, in dictionary order. */
  lemma {:induction false} CategoryEmotionAt(engine: Engine, table: PatternTable, text: string, k: nat, j: nat)
    requires j < k <= |Emotions|
    ensures CategoriesUpTo(engine, table, text, k)[j].emotion == Emotions[j]
  {
    var prev := CategoriesUpTo(engine, table, text, k - 1);
    var c := CategoryOf(engine, table, Emotions[k - 1], text);
    assert CategoriesUpTo(engine, table, text, k) == prev + [c];
    if j < k - 1 {
      CategoryEmotionAt(engine, table, text, k - 1, j);
      assert (prev + [c])[j] == prev[j];
    } else {
      assert (prev + [c])[j] == c;
    }
  }

  /** A lookup finds a key that some entry carries. */
  lemma {:induction false} FoundAt(scores: seq<CategoryScore>, j: nat, e: Emotion)
    requires j < |scores| && scores[j].emotion == e
    ensures Has(scores, e)
    decreases j
  {
    if scores[0].emotion != e {
      FoundAt(scores[1..], j - 1, e);
    }
  }

  /** Every lookup in a full `emotional_scores` succeeds. */
  lemma AllCategoriesFound(engine: Engine, table: PatternTable, text: string, e: Emotion)
    ensures Has(AllCategories(engine, table, text), e)
  {
    var i := match e
      case Urgency => 0 case Fear => 1 case Greed => 2 case Anxiety => 3 case Deference => 4 case Manipulation => 5;
    CategoryEmotionAt(engine, table, text, |Emotions|, i);
    assert AllCategories(engine, table, text)[i].emotion == e;
    FoundAt(AllCategories(engine, table, text), i, e);
  }

  /** Sentiment counts, polarity range, and the label as a comparison of the two counts. */
  lemma SentimentFacts(lib: Stdlib, text: string)
    ensures var s := SentimentOf(lib, text);
      -1.0 <= s.polarity <= 1.0
      && s.sentimentWords == s.positiveCount + s.negativeCount
      && (s.mixed <==> s.positiveCount > 0 && s.negativeCount > 0)
      && (s.tone == Positive <==> 7 * s.positiveCount > 13 * s.negativeCount)
      && (s.tone == Negative <==> 7 * s.negativeCount > 13 * s.positiveCount)
  {
    var words := WordsFrom(lib, Lower(text), 0);
    CountsFacts(CountIn(words, PositiveWords), CountIn(words, NegativeWords));
  }

  lemma CountsFacts(pos: nat, neg: nat)
    ensures var s := SentimentFromCounts(pos, neg);
      -1.0 <= s.polarity <= 1.0
      && s.sentimentWords == s.positiveCount + s.negativeCount
      && s.positiveCount == pos && s.negativeCount == neg
      && (s.mixed <==> pos > 0 && neg > 0)
      && (s.tone == Positive <==> 7 * pos > 13 * neg)
      && (s.tone == Negative <==> 7 * neg > 13 * pos)
  {
    var total := pos + neg;
    if total == 0 {
      Round3Within(0.0, 0, 0);
    } else {
      var p := pos as real;
      var n := neg as real;
      var t := total as real;
      assert t == p + n;
      var q := (p - n) / t;
      RealMeanWithin(p - n, total, -1.0, 1.0);
      Round3Within(q, -1000, 1000);
      DivThresholds(p - n, t, 0.3);
      assert (7 * pos > 13 * neg) <==> 7.0 * p > 13.0 * n;
      assert (7 * neg > 13 * pos) <==> 7.0 * n > 13.0 * p;
    }
  }

  /** For a positive `t`: `a / t > c` exactly when `a > c * t`, and `a / t < -c` exactly when `a < -c * t`. */
  lemma DivThresholds(a: real, t: real, c: real)
    requires t > 0.0
    ensures a / t > c <==> a > c * t
    ensures a / t < -c <==> a < -c * t
  {
    var q := a / t;
    assert q * t == a;
    if q > c {
      assert (q - c) * t > 0.0;
    } else {
      assert (c - q) * t >= 0.0;
    }
    if q < -c {
      assert (-c - q) * t > 0.0;
    } else {
      assert (q + c) * t >= 0.0;
    }
  }

  lemma {:induction false} EmotionSumBounds(scores: seq<CategoryScore>)
    requires ScoresInRange(scores)
    ensures 0.0 <= EmotionSum(scores) <= 10.0 * |scores| as real
  {
    if scores != [] {
      EmotionSumBounds(scores[1..]);
    }
  }

  lemma {:induction false} ScoreOfInRange(scores: seq<CategoryScore>, e: Emotion)
    requires ScoresInRange(scores)
    ensures ScoreOf(scores, e).Some? ==> 0.0 <= ScoreOf(scores, e).value <= 10.0
  {
    if scores != [] && scores[0].emotion != e {
      ScoreOfInRange(scores[1..], e);
    }
  }

  /** With category scores in [0, 10], the hidden-meaning score lies in [0, 100]. */
  lemma HiddenMeaningRange(scores: seq<CategoryScore>, s: Sentiment)
    requires ScoresInRange(scores)
    ensures HiddenMeaning(scores, s).Some? ==> 0.0 <= HiddenMeaning(scores, s).value <= 100.0
  {
    EmotionSumBounds(scores);
    if scores != [] {
      RealMeanWithin(EmotionSum(scores), |scores|, 0.0, 10.0);
    }
    ScoreOfInRange(scores, Urgency);
    ScoreOfInRange(scores, Fear);
    ScoreOfInRange(scores, Anxiety);
    match ComboBonus(scores)
    case None =>
    case Some(combo) =>
      var avg := if scores == [] then 0.0 else EmotionSum(scores) / |scores| as real;
      var critical := (CriticalPart(scores, Urgency) + CriticalPart(scores, Fear) + CriticalPart(scores, Anxiety)) / 3.0;
      var base := (avg * 3.0 + critical * 4.0) / 7.0;
      assert base >= 0.0;
      Round2Within(Min(base * 10.0 + SentimentPenalty(s) + combo, 100.0), 0, 10000);
  }

  /** When urgency, fear and anxiety all score above 5 (in range), the hidden-meaning score is at least 60. */
  lemma ClassicComboScoresHigh(scores: seq<CategoryScore>, s: Sentiment)
    requires ScoresInRange(scores)
    requires Has(scores, Urgency) && Has(scores, Fear) && Has(scores, Anxiety)
    requires Get(scores, Urgency) > 5.0 && Get(scores, Fear) > 5.0 && Get(scores, Anxiety) > 5.0
    ensures HiddenMeaning(scores, s).Some? && HiddenMeaning(scores, s).value >= 60.0
  {
    EmotionSumBounds(scores);
    if scores != [] {
      RealMeanWithin(EmotionSum(scores), |scores|, 0.0, 10.0);
    }
    var avg := if scores == [] then 0.0 else EmotionSum(scores) / |scores| as real;
    var critical := (CriticalPart(scores, Urgency) + CriticalPart(scores, Fear) + CriticalPart(scores, Anxiety)) / 3.0;
    assert critical > 7.5;
    var base := (avg * 3.0 + critical * 4.0) / 7.0;
    assert base * 10.0 + SentimentPenalty(s) + 20.0 >= 60.0;
    Round2Within(Min(base * 10.0 + SentimentPenalty(s) + 20.0, 100.0), 6000, 10000);
  }

  /**
   * Only the four named conflicts can be raised, each at most once and exactly when
   * its condition holds; the 'positive_*' ones need a positive label.  The score is
   * 15 per conflict capped at 50, and there is a conflict exactly when one was raised.
   */
  lemma ConflictFacts(scores: seq<CategoryScore>, s: Sentiment)
    requires ConflictsOf(scores, s).Some?
    ensures var c := ConflictsOf(scores, s).value;
      (forall k :: k in c <==> Raised(k, scores, s))
      && |c| <= 4
      && (forall i, j :: 0 <= i < j < |c| ==> c[i] != c[j])
      && (s.tone != Positive ==> PositiveWithFear !in c && PositiveWithUrgency !in c)
      && (ConflictReport(c).HasConflict() <==> |c| > 0)
      && ConflictReport(c).ConflictScore() <= 50
  {
    var c := ConflictsOf(scores, s).value;
    var b1, b2 := Raised(PositiveWithFear, scores, s), Raised(PositiveWithUrgency, scores, s);
    var b3, b4 := Raised(GreedFearConflict, scores, s), Raised(DeferenceUrgencyConflict, scores, s);
    assert c == OnlyIf(b1, PositiveWithFear) + OnlyIf(b2, PositiveWithUrgency)
      + OnlyIf(b3, GreedFearConflict) + OnlyIf(b4, DeferenceUrgencyConflict);
    RaisedInOrder(b1, b2, b3, b4);
    forall k
      ensures k in c <==> Raised(k, scores, s)
    {
      match k
      case PositiveWithFear =>
      case PositiveWithUrgency =>
      case GreedFearConflict =>
      case DeferenceUrgencyConflict =>
    }
  }

  /** The four kinds, each kept when its flag is set: a kind is present iff its flag is, and none twice. */
  lemma RaisedInOrder(b1: bool, b2: bool, b3: bool, b4: bool)
    ensures var c := OnlyIf(b1, PositiveWithFear) + OnlyIf(b2, PositiveWithUrgency)
        + OnlyIf(b3, GreedFearConflict) + OnlyIf(b4, DeferenceUrgencyConflict);
      (PositiveWithFear in c <==> b1) && (PositiveWithUrgency in c <==> b2)
      && (GreedFearConflict in c <==> b3) && (DeferenceUrgencyConflict in c <==> b4)
      && |c| <= 4 && (forall i, j :: 0 <= i < j < |c| ==> c[i] != c[j])
  {
  }

  /** The tier is the first rung of the ladder whose condition holds; its score is never 0. */
  lemma TierFacts(high: nat, m: real)
    ensures TierOf(high, m) == CriticalTier <==> high >= 3 || m > 7.0
    ensures TierOf(high, m) == HighTier <==> !(high >= 3 || m > 7.0) && (high >= 2 || m > 5.0)
    ensures TierOf(high, m) == MediumTier <==> !(high >= 2 || m > 5.0) && (high >= 1 || m > 3.0)
    ensures TierOf(high, m) == LowTier <==> high == 0 && m <= 3.0
    ensures TierOf(high, m).Score() >= 20
  {
  }

  /** More high-intensity categories, or a higher manipulation score, never lower the tier. */
  lemma TierMonotone(h1: nat, m1: real, h2: nat, m2: real)
    requires h1 <= h2 && m1 <= m2
    ensures TierOf(h1, m1).Score() <= TierOf(h2, m2).Score()
  {
  }

  lemma {:induction false} CategoryFactorsShape(scores: seq<CategoryScore>, k: nat)
    requires k <= |scores|
    ensures |CategoryFactors(scores, k)| <= k
    ensures forall f :: f in CategoryFactors(scores, k) ==> f.HighMarkers? || f.ModerateMarkers?
    ensures forall i :: 0 <= i < k && scores[i].score > 6.0 ==>
      HighMarkers(scores[i].emotion, scores[i].score, scores[i].count) in CategoryFactors(scores, k)
    ensures forall i :: 0 <= i < k && 4.0 < scores[i].score <= 6.0 ==>
      ModerateMarkers(scores[i].emotion, scores[i].score) in CategoryFactors(scores, k)
  {
    if k > 0 {
      CategoryFactorsShape(scores, k - 1);
    }
  }

  /**
   * Each category contributes at most one line (High above 6, Moderate in (4, 6]);
   * the mixed-tone line is there exactly when the sentiment is mixed, and the framing
   * line exactly when the label is positive with more than two negative words.
   */
  lemma RiskFactorFacts(scores: seq<CategoryScore>, s: Sentiment)
    ensures var f := RiskFactorsOf(scores, s);
      |f| <= |scores| + 2
      && (MixedTone(s.positiveCount, s.negativeCount) in f <==> s.mixed)
      && (PositiveFraming in f <==> s.tone == Positive && s.negativeCount > 2)
      && (forall i :: 0 <= i < |scores| && scores[i].score > 6.0 ==>
            HighMarkers(scores[i].emotion, scores[i].score, scores[i].count) in f)
  {
    CategoryFactorsShape(scores, |scores|);
  }

  /**
   * Input that is not a string, or is empty, gives the fixed empty analysis, whose
   * manipulation entry is 'LOW' with score 0, which no computed tier produces.
   */
  lemma EmptyInputGivesEmptyAnalysis(engine: Engine, lib: Stdlib, input: Option<string>)
    requires input == None || input == Some("")
    ensures var a := AnalysisOf(engine, lib, input);
      a == EmptyAnalysis()
      && a.manipulation.LevelText() == "LOW" && a.manipulation.Score() == 0
      && a.hiddenMeaning == 0.0 && a.riskFactors == [] && !a.conflict.HasConflict()
      && (forall i :: 0 <= i < |a.scores| ==> a.scores[i].score == 0.0 && a.scores[i].count == 0)
  {
  }

  /** A text longer than the limit is analysed as its first 100000 characters. */
  lemma LongTextTruncated(engine: Engine, lib: Stdlib, text: string)
    requires |text| > MaxTextLength
    ensures AnalysisOf(engine, lib, Some(text)) == AnalysisOf(engine, lib, Some(text[..MaxTextLength]))
  {
    assert text[..MaxTextLength][..MaxTextLength] == text[..MaxTextLength];
  }

  /** `total_matches` and `total_intensity` stay within the per-match bounds. */
  lemma {:induction false} TotalsBounds(engine: Engine, table: PatternTable, text: string, k: nat)
    requires k <= |Emotions|
    ensures 3.6 * MatchesUpTo(engine, table, text, k) as real <= IntensityUpTo(engine, table, text, k)
      <= 11.7 * MatchesUpTo(engine, table, text, k) as real
  {
    if k > 0 {
      TotalsBounds(engine, table, text, k - 1);
      CategoryTallyBounds(engine, table, Emotions[k - 1], text);
    }
  }

  /**
   * Every category scores in [0, 10], the hidden-meaning score lies in [0, 100], the
   * conflict step did not fall back, and the composite intensity is 0 (exactly when
   * no marker matched) or lies in [3.6, 11.7].
   */
  predicate InRange(a: Analysis) {
    ScoresInRange(a.scores)
    && 0.0 <= a.hiddenMeaning <= 100.0
    && a.conflict.ConflictReport?
    && (a.compositeIntensity == 0.0 || 3.6 <= a.compositeIntensity <= 11.7)
    && (a.totalMarkers == 0 <==> a.compositeIntensity == 0.0)
  }

  /**
   * For a non-empty text: every category scores in [0, 10], the hidden-meaning score
   * is computed (never the fallback) and lies in [0, 100], the conflict step never
   * falls back, and the composite intensity is 0 or lies in [3.6, 11.7].
   */
  lemma AnalysisFacts(engine: Engine, lib: Stdlib, text: string)
    requires text != ""
    ensures InRange(AnalysisOf(engine, lib, Some(text)))
  {
    var lower := Lower(if |text| > MaxTextLength then text[..MaxTextLength] else text);
    FullScores(engine, EmotionalPatterns, lower);
    TotalsBounds(engine, EmotionalPatterns, lower, |Emotions|);
    AnalysisAssembled(engine, lib, text);
    AssembleFacts(AllCategories(engine, EmotionalPatterns, lower), SentimentOf(lib, lower), MatchesUpTo(engine, EmotionalPatterns, lower, |Emotions|),
                  IntensityUpTo(engine, EmotionalPatterns, lower, |Emotions|));
  }

  lemma AnalysisAssembled(engine: Engine, lib: Stdlib, text: string)
    requires text != ""
    ensures var lower := Lower(if |text| > MaxTextLength then text[..MaxTextLength] else text);
      AnalysisOf(engine, lib, Some(text)) == Assemble(AllCategories(engine, EmotionalPatterns, lower), SentimentOf(lib, lower),
        MatchesUpTo(engine, EmotionalPatterns, lower, |Emotions|), IntensityUpTo(engine, EmotionalPatterns, lower, |Emotions|))
  {
  }

  /** `emotional_scores` is in range and every lookup the later steps make succeeds. */
  lemma FullScores(engine: Engine, table: PatternTable, text: string)
    ensures var scores := AllCategories(engine, table, text);
      ScoresInRange(scores) && Has(scores, Urgency) && Has(scores, Fear) && Has(scores, Greed)
      && Has(scores, Anxiety) && Has(scores, Deference) && Has(scores, Manipulation)
  {
    CategoriesInRange(engine, table, text, |Emotions|);
    AllCategoriesFound(engine, table, text, Urgency);
    AllCategoriesFound(engine, table, text, Fear);
    AllCategoriesFound(engine, table, text, Greed);
    AllCategoriesFound(engine, table, text, Anxiety);
    AllCategoriesFound(engine, table, text, Deference);
    AllCategoriesFound(engine, table, text, Manipulation);
  }

  /** What `AnalysisFacts` states, for any complete, in-range scores and totals within the per-match bounds. */
  lemma AssembleFacts(scores: seq<CategoryScore>, s: Sentiment, m: nat, total: real)
    requires ScoresInRange(scores)
    requires Has(scores, Urgency) && Has(scores, Fear) && Has(scores, Greed) && Has(scores, Anxiety)
      && Has(scores, Deference)
    requires 3.6 * m as real <= total <= 11.7 * m as real
    ensures InRange(Assemble(scores, s, m, total))
  {
    assert ComboBonus(scores).Some?;
    assert ConflictsOf(scores, s).Some?;
    HiddenMeaningRange(scores, s);
    if m > 0 {
      RealMeanWithin(total, m, 3.6, 11.7);
      Round2Within(total / m as real, 360, 1170);
    }
  }

  /** The summary tier only rises with the score. */
  lemma SummaryTierMonotone(a: real, b: real)
    requires a <= b
    ensures (SummaryTierOf(a) == CriticalSummary ==> SummaryTierOf(b) == CriticalSummary)
    ensures (SummaryTierOf(b) == LowSummary ==> SummaryTierOf(a) == LowSummary)
    ensures (SummaryTierOf(a) == HighSummary ==> SummaryTierOf(b) in {HighSummary, CriticalSummary})
  {
  }
}
