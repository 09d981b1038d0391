/**
 * The in-memory parts of `app/modules/analytics/database.py`, with the SQL removed:
 * `categorize_pattern`, the row `log_prediction` stores, the comma-joined keyword
 * column and how the dashboard reads it back, the top-keyword aggregation of
 * `get_analytics`, and the per-keyword running average of `update_phishing_patterns`.
 * The tables are values (a sequence of history rows, a map of pattern rows).
 */
module Analytics {
  import opened Wrappers
  import opened Strings
  import opened Predictor
  import Explainer
  import Numeric

  // ------------------------------------------------------------ categorize_pattern

  /** The attack pattern a keyword is filed under. */
  datatype PatternType =
    | CredentialHarvesting | UrgencyPressure | FinancialFraud | RewardScam | DeadlinePressure | Other
  {
    function Name(): string {
      match this
      case CredentialHarvesting => "Credential Harvesting"
      case UrgencyPressure => "Urgency/Time Pressure"
      case FinancialFraud => "Financial Fraud"
      case RewardScam => "Reward/Prize Scam"
      case DeadlinePressure => "Deadline Pressure"
      case Other => "Other"
    }
  }

  const CredentialWords: seq<string> := ["verify", "confirm", "authenticate", "validate"]
  const UrgencyWords: seq<string> := ["urgent", "immediately", "asap", "today", "now"]
  const FinancialWords: seq<string> := ["scholarship", "fee", "payment", "refund", "money"]
  const RewardWords: seq<string> := ["scholarship", "award", "prize", "congratulations"]
  const DeadlineWords: seq<string> := ["deadline", "expires", "limited"]

  /** `categorize_pattern(keyword)`: the first branch whose word list has a word inside the lowercased keyword. */
  function CategorizePattern(keyword: string): PatternType {
    var low := Lower(keyword);
    if ContainsAny(low, CredentialWords) then CredentialHarvesting
    else if ContainsAny(low, UrgencyWords) then UrgencyPressure
    else if ContainsAny(low, FinancialWords) then FinancialFraud
    else if ContainsAny(low, RewardWords) then RewardScam
    else if ContainsAny(low, DeadlineWords) then DeadlinePressure
    else Other
  }

  /** The branches as a table, in the order they are tried. */
  const Branches: seq<(seq<string>, PatternType)> := [
    (CredentialWords, CredentialHarvesting), (UrgencyWords, UrgencyPressure),
    (FinancialWords, FinancialFraud), (RewardWords, RewardScam), (DeadlineWords, DeadlinePressure)]

  /** A generic first-match lookup: the label of the first row with a word in `low`, else Other. */
  function FirstMatch(low: string, table: seq<(seq<string>, PatternType)>): PatternType
    decreases |table|
  {
    if table == [] then Other
    else if ContainsAny(low, table[0].0) then table[0].1
    else FirstMatch(low, table[1..])
  }

  /** A first match is the label of a matching row no earlier row matches, and Other only when no row matches. */
  lemma {:induction false} FirstMatchSpec(low: string, table: seq<(seq<string>, PatternType)>)
    requires forall j :: 0 <= j < |table| ==> table[j].1 != Other
    ensures var p := FirstMatch(low, table);
      (p == Other <==> forall j :: 0 <= j < |table| ==> !ContainsAny(low, table[j].0))
      && (p != Other ==> exists j :: 0 <= j < |table| && table[j].1 == p && ContainsAny(low, table[j].0)
                                     && forall i :: 0 <= i < j ==> !ContainsAny(low, table[i].0))
    decreases |table|
  {
    if table != [] && !ContainsAny(low, table[0].0) {
      FirstMatchSpec(low, table[1..]);
      var p := FirstMatch(low, table);
      if p != Other {
        var j :| 0 <= j < |table[1..]| && table[1..][j].1 == p && ContainsAny(low, table[1..][j].0)
                 && forall i :: 0 <= i < j ==> !ContainsAny(low, table[1..][i].0);
        assert table[j + 1] == table[1..][j];
        forall i | 0 <= i < j + 1
          ensures !ContainsAny(low, table[i].0)
        {
          if i > 0 {
            assert table[i] == table[1..][i - 1];
          }
        }
      }
      forall j | 0 <= j < |table[1..]|
        ensures table[1..][j] == table[j + 1]
      {
      }
    }
  }

  /** The if/elif chain is the first match over the branch table. */
  lemma CategorizeIsFirstMatch(keyword: string)
    ensures CategorizePattern(keyword) == FirstMatch(Lower(keyword), Branches)
  {
    var low := Lower(keyword);
    var t1 := Branches[1..];
    var t2 := t1[1..];
    var t3 := t2[1..];
    var t4 := t3[1..];
    assert t4 == [(DeadlineWords, DeadlinePressure)];
    assert t4[1..] == [];
    assert FirstMatch(low, t4) == if ContainsAny(low, DeadlineWords) then DeadlinePressure else Other;
    assert t3[0] == (RewardWords, RewardScam);
    assert FirstMatch(low, t3) == if ContainsAny(low, RewardWords) then RewardScam else FirstMatch(low, t4);
    assert t2[0] == (FinancialWords, FinancialFraud);
    assert FirstMatch(low, t2) == if ContainsAny(low, FinancialWords) then FinancialFraud else FirstMatch(low, t3);
    assert t1[0] == (UrgencyWords, UrgencyPressure);
    assert FirstMatch(low, t1) == if ContainsAny(low, UrgencyWords) then UrgencyPressure else FirstMatch(low, t2);
  }

  /**
   * `categorize_pattern` is one of the six labels; it is Other exactly when no listed word occurs,
   * and otherwise the label of the first list with a word in the lowercased keyword.
   */
  lemma CategorizeFacts(keyword: string)
    ensures var p := CategorizePattern(keyword);
      (p == Other <==> forall j :: 0 <= j < |Branches| ==> !ContainsAny(Lower(keyword), Branches[j].0))
      && (p != Other ==> exists j :: 0 <= j < |Branches| && Branches[j].1 == p
                                     && ContainsAny(Lower(keyword), Branches[j].0)
                                     && forall i :: 0 <= i < j ==> !ContainsAny(Lower(keyword), Branches[i].0))
  {
    CategorizeIsFirstMatch(keyword);
    FirstMatchSpec(Lower(keyword), Branches);
  }

  /**
   * 'scholarship' is on the Financial Fraud list, which is tried before the Reward/Prize list, so a
   * keyword containing it is never filed as a reward scam.
   */
  lemma ScholarshipNeverReward(keyword: string)
    requires Contains(Lower(keyword), "scholarship")
    ensures CategorizePattern(keyword) in {CredentialHarvesting, UrgencyPressure, FinancialFraud}
  {
    assert FinancialWords[0] == "scholarship";
    assert ContainsAny(Lower(keyword), FinancialWords);
  }

  /** "asap" could only start at the one 'a' of "scholarship", which is followed by 'r'. */
  lemma ScholarshipHasNoAsap()
    ensures !Contains("scholarship", "asap")
  {
    var s := "scholarship";
    forall i | 0 <= i <= |s| - 4
      ensures !OccursAt(s, "asap", i)
    {
      if i == 5 {
        assert s[5..9][1] == 'r';
      } else {
        assert s[i] != 'a';
        Predictor.MissesAt(s, "asap", i);
      }
    }
  }

  /** "scholarship" contains no credential word. */
  lemma ScholarshipNoCredentialWord()
    ensures !ContainsAny("scholarship", CredentialWords)
  {
    var s := "scholarship";
    AbsentCharNotContained(s, "verify", 'v');
    AbsentCharNotContained(s, "confirm", 'f');
    AbsentCharNotContained(s, "authenticate", 't');
    AbsentCharNotContained(s, "validate", 'v');
  }

  /** "scholarship" contains no urgency word. */
  lemma ScholarshipNoUrgencyWord()
    ensures !ContainsAny("scholarship", UrgencyWords)
  {
    var s := "scholarship";
    AbsentCharNotContained(s, "urgent", 'u');
    AbsentCharNotContained(s, "immediately", 'm');
    ScholarshipHasNoAsap();
    AbsentCharNotContained(s, "today", 't');
    AbsentCharNotContained(s, "now", 'n');
  }

  /** A plain 'scholarship' is filed as Financial Fraud. */
  lemma ScholarshipIsFinancial()
    ensures CategorizePattern("scholarship") == FinancialFraud
  {
    LowerOfLowered("scholarship");
    ScholarshipNoCredentialWord();
    ScholarshipNoUrgencyWord();
    assert FinancialWords[0] == "scholarship";
    assert OccursAt("scholarship", "scholarship", 0);
  }

  // ------------------------------------------------------------- log_prediction

  /** The stored text is cut to its first 500 characters. */
  const StoredTextLength: nat := 500

  /** `','.join(keywords) if keywords else ''`. */
  function KeywordsField(keywords: seq<string>): string {
    if keywords == [] then "" else Join(keywords, ",")
  }

  /** The `prediction_history` row `log_prediction` inserts. */
  datatype LoggedPrediction = LoggedPrediction(
    emailText: string,
    classification: Verdict,
    confidence: real,
    urgencyScore: real,
    lrScore: real,
    nbScore: real,
    svmScore: real,
    keywords: string,
    institution: string)

  /** `log_prediction`; the model scores come as the `(name, probability)` entries of the prediction. */
  function LogPrediction(classification: Verdict, confidence: real, emailText: string,
                         modelScores: seq<(string, real)>, urgencyScore: real, keywords: seq<string>,
                         institution: string): LoggedPrediction
  {
    LoggedPrediction(
      if |emailText| <= StoredTextLength then emailText else emailText[..StoredTextLength],
      classification, confidence, urgencyScore,
      Explainer.Lookup(modelScores, "logistic"), Explainer.Lookup(modelScores, "nb"),
      Explainer.Lookup(modelScores, "svm"), KeywordsField(keywords), institution)
  }

  // ------------------------------------------------- reading the keyword column

  /** `kw.strip().lower()`. */
  function NormalizeKeyword(part: string): string {
    Lower(Strip(part))
  }

  /** The normalized non-empty parts, in order. */
  function NormalizedKeywords(parts: seq<string>): (r: seq<string>)
    ensures forall k :: 0 <= k < |r| ==> r[k] != [] && IsLowered(r[k])
    decreases |parts|
  {
    if parts == [] then []
    else
      var init := NormalizedKeywords(parts[..|parts| - 1]);
      var k := NormalizeKeyword(parts[|parts| - 1]);
      LowerIsLowered(Strip(parts[|parts| - 1]));
      if k == [] then init else init + [k]
  }

  /** The keywords the dashboard reads back from a stored column: none for an empty column. */
  function StoredKeywords(field: string): seq<string> {
    if field == [] then [] else NormalizedKeywords(Split(field, ','))
  }

  /** Each keyword lowercased. */
  function LowerAll(keywords: seq<string>): (r: seq<string>)
    ensures |r| == |keywords|
  {
    seq(|keywords|, i requires 0 <= i < |keywords| => Lower(keywords[i]))
  }

  /** A keyword the column can carry unchanged: non-empty, comma-free, with no surrounding white space. */
  predicate StorableKeyword(k: string) {
    k != [] && ',' !in k && IsStripped(k)
  }

  lemma {:induction false} NormalizeStorable(keywords: seq<string>)
    requires forall i :: 0 <= i < |keywords| ==> StorableKeyword(keywords[i])
    ensures NormalizedKeywords(keywords) == LowerAll(keywords)
    decreases |keywords|
  {
    if keywords != [] {
      var init := keywords[..|keywords| - 1];
      NormalizeStorable(init);
      StripStripped(keywords[|keywords| - 1]);
      assert LowerAll(keywords) == LowerAll(init) + [Lower(keywords[|keywords| - 1])];
    }
  }

  /** Writing a list of storable keywords and reading the column back gives the list, lowercased. */
  lemma KeywordsRoundTrip(keywords: seq<string>)
    requires forall i :: 0 <= i < |keywords| ==> StorableKeyword(keywords[i])
    ensures StoredKeywords(KeywordsField(keywords)) == LowerAll(keywords)
  {
    if keywords != [] {
      SplitJoin(keywords, ',');
      NormalizeStorable(keywords);
      assert Join(keywords, ",") != [] by {
        JoinNonEmpty(keywords, ",");
      }
    }
  }

  lemma {:induction false} JoinNonEmpty(parts: seq<string>, sep: string)
    requires parts != [] && parts[0] != []
    ensures Join(parts, sep) != []
  {
  }

  /**
   * The stored text is the first 500 characters (all of a shorter text); a model missing from the
   * scores is stored as 0; the keyword column reads back as the keywords, lowercased.
   */
  lemma LogPredictionFacts(classification: Verdict, confidence: real, emailText: string,
                           modelScores: seq<(string, real)>, urgencyScore: real, keywords: seq<string>,
                           institution: string)
    ensures var row := LogPrediction(classification, confidence, emailText, modelScores, urgencyScore,
                                     keywords, institution);
      |row.emailText| <= 500 && row.emailText <= emailText
      && (|emailText| <= 500 ==> row.emailText == emailText)
      && ((forall i :: 0 <= i < |modelScores| ==> modelScores[i].0 != "svm") ==> row.svmScore == 0.0)
      && ((forall i :: 0 <= i < |keywords| ==> StorableKeyword(keywords[i])) ==>
            StoredKeywords(row.keywords) == LowerAll(keywords))
  {
    if forall i :: 0 <= i < |modelScores| ==> modelScores[i].0 != "svm" {
      Explainer.LookupMissing(modelScores, "svm");
    }
    if forall i :: 0 <= i < |keywords| ==> StorableKeyword(keywords[i]) {
      KeywordsRoundTrip(keywords);
    }
  }

  // ----------------------------------------------------------------- top keywords

  /** A PHISHING history row as the top-keyword query returns it: the keyword column and `model_lr_score`. */
  datatype HistoryRow = HistoryRow(keywords: string, lrScore: Option<real>)

  /** `float(lr_score) if lr_score is not None else 0.0`. */
  function RowRisk(row: HistoryRow): real {
    if row.lrScore.Some? then row.lrScore.value else 0.0
  }

  /** Each keyword paired with a risk. */
  function Tagged(keywords: seq<string>, risk: real): (r: seq<(string, real)>)
    ensures |r| == |keywords|
  {
    seq(|keywords|, i requires 0 <= i < |keywords| => (keywords[i], risk))
  }

  /** Every keyword occurrence the aggregation counts, row by row, each with its row's risk. */
  function Occurrences(rows: seq<HistoryRow>): seq<(string, real)>
    decreases |rows|
  {
    if rows == [] then []
    else
      var last := rows[|rows| - 1];
      Occurrences(rows[..|rows| - 1]) + Tagged(StoredKeywords(last.keywords), RowRisk(last))
  }

  /** How often `k` occurs in `occ`. */
  function Freq(occ: seq<(string, real)>, k: string): nat
    decreases |occ|
  {
    if occ == [] then 0 else Freq(occ[..|occ| - 1], k) + (if occ[|occ| - 1].0 == k then 1 else 0)
  }

  /** The risks summed over the occurrences of `k`. */
  function RiskSum(occ: seq<(string, real)>, k: string): real
    decreases |occ|
  {
    if occ == [] then 0.0 else RiskSum(occ[..|occ| - 1], k) + (if occ[|occ| - 1].0 == k then occ[|occ| - 1].1 else 0.0)
  }

  /** The two dictionaries of the aggregation, and the insertion order of their keys. */
  datatype Tally = Tally(counts: map<string, nat>, riskSums: map<string, real>, order: seq<string>)

  /** One occurrence: `counts[k] = counts.get(k, 0) + 1` and `risk_sum[k] = risk_sum.get(k, 0.0) + risk`. */
  function Record(t: Tally, k: string, risk: real): Tally {
    Tally(t.counts[k := (if k in t.counts then t.counts[k] else 0) + 1],
          t.riskSums[k := (if k in t.riskSums then t.riskSums[k] else 0.0) + risk],
          if k in t.counts then t.order else t.order + [k])
  }

  /** The dictionaries after recording `occ` in order. */
  function TallyOf(occ: seq<(string, real)>): Tally
    decreases |occ|
  {
    if occ == [] then Tally(map[], map[], [])
    else Record(TallyOf(occ[..|occ| - 1]), occ[|occ| - 1].0, occ[|occ| - 1].1)
  }

  /**
   * The dictionaries hold exactly the keywords that occur, each with its number of occurrences and
   * its summed risk; the insertion order lists each of them once.
   */
  lemma {:induction false} TallyFacts(occ: seq<(string, real)>)
    ensures forall k :: k in TallyOf(occ).counts <==> Freq(occ, k) > 0
    ensures forall k :: k in TallyOf(occ).riskSums <==> k in TallyOf(occ).counts
    ensures forall k :: k in TallyOf(occ).counts ==>
      TallyOf(occ).counts[k] == Freq(occ, k) && TallyOf(occ).riskSums[k] == RiskSum(occ, k)
    ensures forall k :: Freq(occ, k) == 0 ==> RiskSum(occ, k) == 0.0
    ensures forall k :: multiset(TallyOf(occ).order)[k] == if k in TallyOf(occ).counts then 1 else 0
    decreases |occ|
  {
    if occ != [] {
      var p := occ[..|occ| - 1];
      var x := occ[|occ| - 1].0;
      TallyFacts(p);
      var t0 := TallyOf(p);
      var t := TallyOf(occ);
      assert t == Record(t0, x, occ[|occ| - 1].1);
      forall k
        ensures Freq(occ, k) == Freq(p, k) + (if k == x then 1 else 0)
        ensures RiskSum(occ, k) == RiskSum(p, k) + (if k == x then occ[|occ| - 1].1 else 0.0)
      {
      }
      forall k | k in t.counts
        ensures t.counts[k] == Freq(occ, k) && t.riskSums[k] == RiskSum(occ, k)
      {
        if k != x {
          assert t.counts[k] == t0.counts[k] && t.riskSums[k] == t0.riskSums[k];
        }
      }
    }
  }

  /** Every key in the insertion order has a count. */
  lemma TallyOrderCounted(occ: seq<(string, real)>)
    ensures Counted(TallyOf(occ).order, TallyOf(occ).counts)
  {
    var t := TallyOf(occ);
    TallyFacts(occ);
    forall i | 0 <= i < |t.order|
      ensures t.order[i] in t.counts
    {
      var k := t.order[i];
      assert k in multiset(t.order);
      assert multiset(t.order)[k] == if k in t.counts then 1 else 0;
    }
  }

  /** With every risk in [0,1], a keyword's summed risk lies between 0 and its frequency. */
  lemma {:induction false} RiskSumWithin(occ: seq<(string, real)>, k: string)
    requires forall i :: 0 <= i < |occ| ==> 0.0 <= occ[i].1 <= 1.0
    ensures 0.0 <= RiskSum(occ, k) <= Freq(occ, k) as real
    decreases |occ|
  {
    if occ != [] {
      RiskSumWithin(occ[..|occ| - 1], k);
    }
  }

  /** Every key of `keys` has a count. */
  predicate Counted(keys: seq<string>, counts: map<string, nat>) {
    forall i :: 0 <= i < |keys| ==> keys[i] in counts
  }

  /** Frequencies never increase along `keys`. */
  predicate ByFrequency(keys: seq<string>, counts: map<string, nat>)
    requires Counted(keys, counts)
  {
    forall i, j :: 0 <= i < j < |keys| ==> counts[keys[i]] >= counts[keys[j]]
  }

  /** Insert `k` after every key at least as frequent; the other keys keep their order. */
  function InsertByFrequency(sorted: seq<string>, k: string, counts: map<string, nat>): (r: seq<string>)
    requires k in counts && Counted(sorted, counts)
    ensures multiset(r) == multiset(sorted) + multiset{k}
    ensures Counted(r, counts)
    decreases |sorted|
  {
    if sorted == [] then [k]
    else if counts[sorted[0]] >= counts[k] then
      assert sorted == [sorted[0]] + sorted[1..];
      [sorted[0]] + InsertByFrequency(sorted[1..], k, counts)
    else [k] + sorted
  }

  /**
   * `sorted(keyword_counts.items(), key=frequency, reverse=True)`: a stable sort, most frequent first,
   * built by inserting each key in turn.
   */
  function SortByFrequency(keys: seq<string>, counts: map<string, nat>): (r: seq<string>)
    requires Counted(keys, counts)
    ensures multiset(r) == multiset(keys)
    ensures Counted(r, counts)
    decreases |keys|
  {
    if keys == [] then []
    else
      assert keys == keys[..|keys| - 1] + [keys[|keys| - 1]];
      InsertByFrequency(SortByFrequency(keys[..|keys| - 1], counts), keys[|keys| - 1], counts)
  }

  lemma {:induction false} InsertKeepsOrder(sorted: seq<string>, k: string, counts: map<string, nat>)
    requires k in counts && Counted(sorted, counts) && ByFrequency(sorted, counts)
    ensures ByFrequency(InsertByFrequency(sorted, k, counts), counts)
    decreases |sorted|
  {
    if sorted != [] && counts[sorted[0]] >= counts[k] {
      var rest := InsertByFrequency(sorted[1..], k, counts);
      InsertKeepsOrder(sorted[1..], k, counts);
      var r := [sorted[0]] + rest;
      forall j | 0 < j < |r|
        ensures counts[r[0]] >= counts[r[j]]
      {
        assert r[j] == rest[j - 1];
        assert r[j] in multiset(rest);
        assert r[j] in multiset(sorted[1..]) + multiset{k};
        if r[j] != k {
          var m :| 0 <= m < |sorted[1..]| && sorted[1..][m] == r[j];
          assert sorted[m + 1] == r[j];
        }
      }
      forall i, j | 0 < i < j < |r|
        ensures counts[r[i]] >= counts[r[j]]
      {
        assert r[i] == rest[i - 1] && r[j] == rest[j - 1];
      }
    }
  }

  /** The sort puts the most frequent keys first. */
  lemma {:induction false} SortIsByFrequency(keys: seq<string>, counts: map<string, nat>)
    requires Counted(keys, counts)
    ensures ByFrequency(SortByFrequency(keys, counts), counts)
    decreases |keys|
  {
    if keys != [] {
      SortIsByFrequency(keys[..|keys| - 1], counts);
      InsertKeepsOrder(SortByFrequency(keys[..|keys| - 1], counts), keys[|keys| - 1], counts);
    }
  }

  /** Keys that each occur at most once in the multiset are pairwise different. */
  lemma NoRepeatsDistinct(xs: seq<string>)
    requires forall x :: multiset(xs)[x] <= 1
    ensures Predictor.Distinct(xs)
  {
    forall i, j | 0 <= i < j < |xs|
      ensures xs[i] != xs[j]
    {
      assert xs == xs[..i] + [xs[i]] + xs[i + 1..j] + [xs[j]] + xs[j + 1..];
      assert multiset(xs)[xs[i]] >= multiset([xs[i]] + xs[i + 1..j] + [xs[j]])[xs[i]];
    }
  }

  /** At most 15 keywords are reported. */
  const TopKeywordLimit: nat := 15

  /** One reported keyword with its frequency and average risk. */
  datatype KeywordStat = KeywordStat(keyword: string, frequency: nat, avgRisk: real)

  /** `risk_sum.get(k, 0.0) / freq if freq else 0.0`. */
  function StatOf(t: Tally, k: string): KeywordStat
    requires k in t.counts
  {
    var freq := t.counts[k];
    KeywordStat(k, freq, if freq != 0 then (if k in t.riskSums then t.riskSums[k] else 0.0) / freq as real else 0.0)
  }

  /** The first 15 keys, or all of them. */
  function Take(keys: seq<string>): (r: seq<string>)
    ensures |r| <= TopKeywordLimit && r <= keys
  {
    if |keys| <= TopKeywordLimit then keys else keys[..TopKeywordLimit]
  }

  /** Each key's statistics, in order. */
  function StatsOf(t: Tally, keys: seq<string>): (r: seq<KeywordStat>)
    requires Counted(keys, t.counts)
    ensures |r| == |keys|
  {
    seq(|keys|, i requires 0 <= i < |keys| => StatOf(t, keys[i]))
  }

  /** The keys reported: the first 15 after the sort by frequency. */
  function TopKeys(t: Tally): (r: seq<string>)
    requires Counted(t.order, t.counts)
    ensures Counted(r, t.counts)
  {
    Take(SortByFrequency(t.order, t.counts))
  }

  /** `top_keywords` computed from the PHISHING history rows of one institution. */
  function TopKeywordsOf(rows: seq<HistoryRow>): seq<KeywordStat> {
    var t := TallyOf(Occurrences(rows));
    TallyOrderCounted(Occurrences(rows));
    StatsOf(t, TopKeys(t))
  }

  /** The first 15 of distinct keys sorted by frequency are distinct and most frequent first. */
  lemma TopOfSortedOrder(keys: seq<string>, counts: map<string, nat>)
    requires Counted(keys, counts) && forall x :: multiset(keys)[x] <= 1
    ensures Predictor.Distinct(Take(SortByFrequency(keys, counts)))
    ensures ByFrequency(Take(SortByFrequency(keys, counts)), counts)
  {
    var sorted := SortByFrequency(keys, counts);
    var top := Take(sorted);
    assert ByFrequency(sorted, counts) by {
      SortIsByFrequency(keys, counts);
    }
    assert Predictor.Distinct(sorted) by {
      forall x
        ensures multiset(sorted)[x] <= 1
      {
      }
      NoRepeatsDistinct(sorted);
    }
    assert forall i :: 0 <= i < |top| ==> top[i] == sorted[i];
  }

  /** A key left out of the first 15 of a list sorted by frequency is no more frequent than the fifteenth. */
  lemma TopOfSortedComplete(sorted: seq<string>, counts: map<string, nat>, k: string)
    requires Counted(sorted, counts) && ByFrequency(sorted, counts)
    requires k in sorted && k !in Take(sorted)
    ensures |Take(sorted)| == 15
    ensures counts[k] <= counts[Take(sorted)[14]]
  {
    var top := Take(sorted);
    var m :| 0 <= m < |sorted| && sorted[m] == k;
    assert forall i :: 0 <= i < |top| ==> top[i] == sorted[i];
    assert m >= |top|;
    assert |top| == 15 && top[14] == sorted[14];
  }

  /** The recorded keywords are non-empty and lowercase, and they carry their rows' risks. */
  lemma {:induction false} OccurrenceFacts(rows: seq<HistoryRow>)
    ensures forall i :: 0 <= i < |Occurrences(rows)| ==>
      Occurrences(rows)[i].0 != [] && IsLowered(Occurrences(rows)[i].0)
    ensures (forall r :: 0 <= r < |rows| ==> 0.0 <= RowRisk(rows[r]) <= 1.0) ==>
      forall i :: 0 <= i < |Occurrences(rows)| ==> 0.0 <= Occurrences(rows)[i].1 <= 1.0
    decreases |rows|
  {
    if rows != [] {
      var init := rows[..|rows| - 1];
      OccurrenceFacts(init);
      var last := rows[|rows| - 1];
      var tail := Tagged(StoredKeywords(last.keywords), RowRisk(last));
      assert Occurrences(rows) == Occurrences(init) + tail;
      assert forall i :: 0 <= i < |tail| ==> tail[i].0 == StoredKeywords(last.keywords)[i];
      if forall r :: 0 <= r < |rows| ==> 0.0 <= RowRisk(rows[r]) <= 1.0 {
        assert forall r :: 0 <= r < |init| ==> init[r] == rows[r];
      }
    }
  }

  /** A keyword that occurs is one of the recorded ones. */
  lemma {:induction false} FreqPositive(occ: seq<(string, real)>, k: string)
    requires Freq(occ, k) > 0
    ensures exists i :: 0 <= i < |occ| && occ[i].0 == k
    decreases |occ|
  {
    if occ[|occ| - 1].0 != k {
      FreqPositive(occ[..|occ| - 1], k);
      var i :| 0 <= i < |occ| - 1 && occ[..|occ| - 1][i].0 == k;
      assert occ[i] == occ[..|occ| - 1][i];
    }
  }

  /** The tally's keys are each recorded once, and they are exactly the keywords that occur. */
  lemma TallyKeysOnce(occ: seq<(string, real)>)
    ensures forall x :: multiset(TallyOf(occ).order)[x] <= 1
    ensures forall k :: k in multiset(TallyOf(occ).order) <==> Freq(occ, k) > 0
  {
    TallyFacts(occ);
  }

  /** `top_keywords` lists at most 15 different keywords, most frequent first. */
  lemma TopKeywordsOrder(rows: seq<HistoryRow>)
    ensures |TopKeywordsOf(rows)| <= 15
    ensures forall i, j :: 0 <= i < j < |TopKeywordsOf(rows)| ==>
      TopKeywordsOf(rows)[i].frequency >= TopKeywordsOf(rows)[j].frequency
      && TopKeywordsOf(rows)[i].keyword != TopKeywordsOf(rows)[j].keyword
  {
    var occ := Occurrences(rows);
    var t := TallyOf(occ);
    TallyOrderCounted(occ);
    TallyKeysOnce(occ);
    TopOfSortedOrder(t.order, t.counts);
    var keys := TopKeys(t);
    var r := TopKeywordsOf(rows);
    assert r == StatsOf(t, keys);
    assert forall i :: 0 <= i < |r| ==> r[i].keyword == keys[i] && r[i].frequency == t.counts[keys[i]];
  }

  /**
   * Each reported keyword is a non-empty lowercase keyword that occurs, with its number of
   * occurrences and the mean of their risks.
   */
  lemma TopKeywordsCounts(rows: seq<HistoryRow>)
    ensures forall i :: 0 <= i < |TopKeywordsOf(rows)| ==>
      TopKeywordsOf(rows)[i].frequency == Freq(Occurrences(rows), TopKeywordsOf(rows)[i].keyword) > 0
      && TopKeywordsOf(rows)[i].avgRisk
         == RiskSum(Occurrences(rows), TopKeywordsOf(rows)[i].keyword) / TopKeywordsOf(rows)[i].frequency as real
      && TopKeywordsOf(rows)[i].keyword != [] && IsLowered(TopKeywordsOf(rows)[i].keyword)
  {
    var occ := Occurrences(rows);
    var t := TallyOf(occ);
    TallyFacts(occ);
    TallyOrderCounted(occ);
    OccurrenceFacts(rows);
    var keys := TopKeys(t);
    var r := TopKeywordsOf(rows);
    assert r == StatsOf(t, keys);
    forall i | 0 <= i < |r|
      ensures r[i].frequency == Freq(occ, r[i].keyword) > 0
      ensures r[i].avgRisk == RiskSum(occ, r[i].keyword) / r[i].frequency as real
      ensures r[i].keyword != [] && IsLowered(r[i].keyword)
    {
      assert r[i] == StatOf(t, keys[i]);
      FreqPositive(occ, keys[i]);
    }
  }

  /** A keyword that occurs but is not reported occurs no more often than the fifteenth reported one. */
  lemma TopKeywordsComplete(rows: seq<HistoryRow>, k: string)
    requires Freq(Occurrences(rows), k) > 0
    requires forall i :: 0 <= i < |TopKeywordsOf(rows)| ==> TopKeywordsOf(rows)[i].keyword != k
    ensures |TopKeywordsOf(rows)| == 15 && Freq(Occurrences(rows), k) <= TopKeywordsOf(rows)[14].frequency
  {
    var occ := Occurrences(rows);
    var t := TallyOf(occ);
    TallyFacts(occ);
    TallyOrderCounted(occ);
    TallyKeysOnce(occ);
    var keys := TopKeys(t);
    var r := TopKeywordsOf(rows);
    assert r == StatsOf(t, keys);
    assert k !in keys by {
      assert forall i :: 0 <= i < |r| ==> r[i].keyword == keys[i];
    }
    var sorted := SortByFrequency(t.order, t.counts);
    assert ByFrequency(sorted, t.counts) by {
      SortIsByFrequency(t.order, t.counts);
    }
    assert k in sorted by {
      assert k in multiset(t.order);
      assert multiset(sorted) == multiset(t.order);
    }
    TopOfSortedComplete(sorted, t.counts, k);
    assert r[14] == StatOf(t, keys[14]);
  }

  /** With every `model_lr_score` in [0,1] (or missing), every reported average risk lies in [0,1]. */
  lemma TopKeywordsRisk(rows: seq<HistoryRow>)
    requires forall r :: 0 <= r < |rows| ==> rows[r].lrScore.Some? ==> 0.0 <= rows[r].lrScore.value <= 1.0
    ensures forall i :: 0 <= i < |TopKeywordsOf(rows)| ==> 0.0 <= TopKeywordsOf(rows)[i].avgRisk <= 1.0
  {
    var occ := Occurrences(rows);
    var r := TopKeywordsOf(rows);
    assert forall i :: 0 <= i < |occ| ==> 0.0 <= occ[i].1 <= 1.0 by {
      OccurrenceFacts(rows);
    }
    assert forall i :: 0 <= i < |r| ==>
      r[i].frequency == Freq(occ, r[i].keyword) > 0
      && r[i].avgRisk == RiskSum(occ, r[i].keyword) / r[i].frequency as real by {
      TopKeywordsCounts(rows);
    }
    forall i | 0 <= i < |r|
      ensures 0.0 <= r[i].avgRisk <= 1.0
    {
      MeanRiskWithin(occ, r[i].keyword);
    }
  }

  /** With every risk in [0,1], the mean risk of a keyword that occurs lies in [0,1]. */
  lemma MeanRiskWithin(occ: seq<(string, real)>, k: string)
    requires forall i :: 0 <= i < |occ| ==> 0.0 <= occ[i].1 <= 1.0
    requires Freq(occ, k) > 0
    ensures 0.0 <= RiskSum(occ, k) / Freq(occ, k) as real <= 1.0
  {
    RiskSumWithin(occ, k);
    Numeric.RealMeanWithin(RiskSum(occ, k), Freq(occ, k), 0.0, 1.0);
  }

  lemma TallyAppend(occ: seq<(string, real)>, k: string, risk: real)
    ensures TallyOf(occ + [(k, risk)]) == Record(TallyOf(occ), k, risk)
  {
    assert (occ + [(k, risk)])[..|occ|] == occ;
  }

  lemma NormalizedStep(parts: seq<string>, j: nat)
    requires j < |parts|
    ensures NormalizedKeywords(parts[..j + 1]) == NormalizedKeywords(parts[..j])
      + (if NormalizeKeyword(parts[j]) == [] then [] else [NormalizeKeyword(parts[j])])
  {
    assert parts[..j + 1][..j] == parts[..j];
  }

  lemma OccurrencesStep(rows: seq<HistoryRow>, r: nat)
    requires r < |rows|
    ensures Occurrences(rows[..r + 1])
      == Occurrences(rows[..r]) + Tagged(StoredKeywords(rows[r].keywords), RowRisk(rows[r]))
  {
    assert rows[..r + 1][..r] == rows[..r];
  }

  lemma TaggedStep(before: seq<(string, real)>, parts: seq<string>, j: nat, risk: real)
    requires j < |parts|
    ensures var k := NormalizeKeyword(parts[j]);
      before + Tagged(NormalizedKeywords(parts[..j + 1]), risk)
      == before + Tagged(NormalizedKeywords(parts[..j]), risk) + (if k == [] then [] else [(k, risk)])
  {
    NormalizedStep(parts, j);
  }

  /** One keyword of one row: count it, add the row's risk, and note it if it is new. */
  method RecordKeyword(counts: map<string, nat>, riskSums: map<string, real>, order: seq<string>,
                       k: string, risk: real)
    returns (counts': map<string, nat>, riskSums': map<string, real>, order': seq<string>)
    ensures Tally(counts', riskSums', order') == Record(Tally(counts, riskSums, order), k, risk)
  {
    order' := order;
    if k !in counts {
      order' := order' + [k];
    }
    counts' := counts[k := (if k in counts then counts[k] else 0) + 1];
    riskSums' := riskSums[k := (if k in riskSums then riskSums[k] else 0.0) + risk];
  }

  /** The inner loop of the aggregation: record each stored keyword of one row's column. */
  method RecordRow(counts: map<string, nat>, riskSums: map<string, real>, order: seq<string>,
                   field: string, risk: real, ghost before: seq<(string, real)>)
    returns (counts': map<string, nat>, riskSums': map<string, real>, order': seq<string>)
    requires field != [] && Tally(counts, riskSums, order) == TallyOf(before)
    ensures Tally(counts', riskSums', order') == TallyOf(before + Tagged(StoredKeywords(field), risk))
  {
    counts', riskSums', order' := counts, riskSums, order;
    var parts := Split(field, ',');
    assert before + Tagged(NormalizedKeywords(parts[..0]), risk) == before;
    for j := 0 to |parts|
      invariant Tally(counts', riskSums', order') == TallyOf(before + Tagged(NormalizedKeywords(parts[..j]), risk))
    {
      ghost var seen := before + Tagged(NormalizedKeywords(parts[..j]), risk);
      var k := NormalizeKeyword(parts[j]);
      TaggedStep(before, parts, j, risk);
      if k != [] {
        assert TallyOf(seen + [(k, risk)]) == Record(Tally(counts', riskSums', order'), k, risk) by {
          TallyAppend(seen, k, risk);
        }
        counts', riskSums', order' := RecordKeyword(counts', riskSums', order', k, risk);
        assert before + Tagged(NormalizedKeywords(parts[..j + 1]), risk) == seen + [(k, risk)];
        assert Tally(counts', riskSums', order') == TallyOf(before + Tagged(NormalizedKeywords(parts[..j + 1]), risk));
      } else {
        assert before + Tagged(NormalizedKeywords(parts[..j + 1]), risk) == seen;
        assert Tally(counts', riskSums', order') == TallyOf(before + Tagged(NormalizedKeywords(parts[..j + 1]), risk));
      }
    }
    assert parts[..|parts|] == parts;
  }

  /**
   * The aggregation loop of `get_analytics`: count each stored keyword of each row and sum its
   * row's risk, then report the 15 most frequent with their mean risk.
   */
  method TopKeywords(rows: seq<HistoryRow>) returns (top: seq<KeywordStat>)
    ensures top == TopKeywordsOf(rows)
  {
    var keywordCounts: map<string, nat> := map[];
    var keywordRiskSum: map<string, real> := map[];
    var order: seq<string> := [];
    for r := 0 to |rows|
      invariant Tally(keywordCounts, keywordRiskSum, order) == TallyOf(Occurrences(rows[..r]))
    {
      OccurrencesStep(rows, r);
      var field := rows[r].keywords;
      ghost var before := Occurrences(rows[..r]);
      if field != [] {
        keywordCounts, keywordRiskSum, order := RecordRow(keywordCounts, keywordRiskSum, order, field, RowRisk(rows[r]),
                                                         before);
      } else {
        assert Tagged(StoredKeywords(field), RowRisk(rows[r])) == [];
        assert Occurrences(rows[..r + 1]) == before;
      }
    }
    assert rows[..|rows|] == rows;
    TallyOrderCounted(Occurrences(rows));
    var chosen := Take(SortByFrequency(order, keywordCounts));
    top := ReportStats(keywordCounts, keywordRiskSum, order, chosen);
  }

  /** The reporting loop: each chosen keyword with its frequency and mean risk. */
  method ReportStats(counts: map<string, nat>, riskSums: map<string, real>, order: seq<string>,
                     chosen: seq<string>) returns (top: seq<KeywordStat>)
    requires Counted(chosen, counts)
    ensures top == StatsOf(Tally(counts, riskSums, order), chosen)
  {
    ghost var t := Tally(counts, riskSums, order);
    top := [];
    for i := 0 to |chosen|
      invariant |top| == i
      invariant forall m :: 0 <= m < i ==> top[m] == StatOf(t, chosen[m])
    {
      var k := chosen[i];
      var freq := counts[k];
      var avgRisk := if freq != 0 then (if k in riskSums then riskSums[k] else 0.0) / freq as real else 0.0;
      top := top + [KeywordStat(k, freq, avgRisk)];
    }
    assert top == StatsOf(t, chosen);
  }
}
