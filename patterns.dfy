/**
 * `update_phishing_patterns` in `app/modules/analytics/database.py`: the `phishing_patterns`
 * table keyed by (pattern type, keyword, institution), each row holding a detection count and
 * the running average of the confidences it was detected with.  The table is a map the store
 * rewrites row by row; SQL, row ids and timestamps are not part of this model.
 */
module Patterns {
  import opened Predictor
  import opened Analytics

  /** The columns a row is looked up by. */
  datatype PatternKey = PatternKey(patternType: PatternType, keyword: string, institution: string)

  /** The columns the update rewrites. */
  datatype PatternRow = PatternRow(frequency: nat, avgConfidence: real)

  /** The row a keyword of an institution is filed under. */
  function KeyOf(keyword: string, institution: string): PatternKey {
    PatternKey(CategorizePattern(keyword), keyword, institution)
  }

  /** `(avg_conf * freq + confidence) / (freq + 1)`. */
  function RunningAverage(avg: real, freq: nat, confidence: real): real {
    (avg * freq as real + confidence) / (freq + 1) as real
  }

  /** The table after one keyword: a new row with count 1, or count + 1 and the new average. */
  function RecordPattern(rows: map<PatternKey, PatternRow>, key: PatternKey, confidence: real): map<PatternKey, PatternRow> {
    if key in rows then
      rows[key := PatternRow(rows[key].frequency + 1,
                             RunningAverage(rows[key].avgConfidence, rows[key].frequency, confidence))]
    else rows[key := PatternRow(1, confidence)]
  }

  /** The rows the keywords are filed under, in order. */
  function KeysOf(keywords: seq<string>, institution: string): (r: seq<PatternKey>)
    ensures |r| == |keywords|
    ensures forall i :: 0 <= i < |r| ==> r[i] == KeyOf(keywords[i], institution)
  {
    seq(|keywords|, i requires 0 <= i < |keywords| => KeyOf(keywords[i], institution))
  }

  /** The table after recording one detection under each key, in order. */
  function RecordAll(rows: map<PatternKey, PatternRow>, keys: seq<PatternKey>, confidence: real): map<PatternKey, PatternRow>
    decreases |keys|
  {
    if keys == [] then rows
    else RecordPattern(RecordAll(rows, keys[..|keys| - 1], confidence), keys[|keys| - 1], confidence)
  }

  /** The table after `update_phishing_patterns(classification, confidence, keywords, institution)`. */
  function UpdatedPatterns(rows: map<PatternKey, PatternRow>, classification: Verdict, confidence: real,
                           keywords: seq<string>, institution: string): map<PatternKey, PatternRow>
  {
    if classification != Phishing || keywords == [] then rows
    else RecordAll(rows, KeysOf(keywords, institution), confidence)
  }

  /** How many of `keys` are `key`. */
  function Hits(keys: seq<PatternKey>, key: PatternKey): nat
    decreases |keys|
  {
    if keys == [] then 0
    else Hits(keys[..|keys| - 1], key) + (if keys[|keys| - 1] == key then 1 else 0)
  }

  /** `confidence` added up `n` times. */
  function Repeated(confidence: real, n: nat): real {
    if n == 0 then 0.0 else Repeated(confidence, n - 1) + confidence
  }

  /** Adding a confidence up `n` times is multiplying it by `n`. */
  lemma {:induction false} RepeatedIsProduct(confidence: real, n: nat)
    ensures Repeated(confidence, n) == confidence * n as real
  {
    if n > 0 {
      RepeatedIsProduct(confidence, n - 1);
    }
  }

  /** The count of a row, 0 for a missing one. */
  function FrequencyOf(rows: map<PatternKey, PatternRow>, key: PatternKey): nat {
    if key in rows then rows[key].frequency else 0
  }

  /** The sum of the confidences a row averages, 0 for a missing one. */
  function TotalOf(rows: map<PatternKey, PatternRow>, key: PatternKey): real {
    if key in rows then rows[key].avgConfidence * rows[key].frequency as real else 0.0
  }

  /**
   * A table whose rows each count at least one detection, average confidences in [0,1] and
   * are filed under the category of their keyword.
   */
  predicate WellFormed(rows: map<PatternKey, PatternRow>) {
    forall key :: key in rows ==>
      rows[key].frequency >= 1 && 0.0 <= rows[key].avgConfidence <= 1.0
      && key.patternType == CategorizePattern(key.keyword)
  }

  /** The new average times the new count is the old sum plus the new confidence. */
  lemma RunningAverageIsMean(avg: real, freq: nat, confidence: real)
    ensures RunningAverage(avg, freq, confidence) * (freq + 1) as real == avg * freq as real + confidence
  {
  }

  /** Averaging a confidence in [0,1] into an average in [0,1] stays in [0,1]. */
  lemma RunningAverageWithin(avg: real, freq: nat, confidence: real)
    requires 0.0 <= avg <= 1.0 && 0.0 <= confidence <= 1.0
    ensures 0.0 <= RunningAverage(avg, freq, confidence) <= 1.0
  {
    assert 0.0 <= avg * freq as real <= freq as real;
    Numeric.RealMeanWithin(avg * freq as real + confidence, freq + 1, 0.0, 1.0);
  }

  /**
   * Recording one keyword adds one detection and its confidence to the sum of its own row,
   * and leaves every other row as it was.
   */
  lemma RecordPatternFacts(rows: map<PatternKey, PatternRow>, key: PatternKey, confidence: real, other: PatternKey)
    ensures key in RecordPattern(rows, key, confidence)
    ensures FrequencyOf(RecordPattern(rows, key, confidence), key) == FrequencyOf(rows, key) + 1
    ensures TotalOf(RecordPattern(rows, key, confidence), key) == TotalOf(rows, key) + confidence
    ensures other != key ==> (other in RecordPattern(rows, key, confidence) <==> other in rows)
    ensures other != key && other in rows ==> RecordPattern(rows, key, confidence)[other] == rows[other]
  {
    if key in rows {
      RunningAverageIsMean(rows[key].avgConfidence, rows[key].frequency, confidence);
    }
  }

  /** After recording the keys, each row has gained one detection per occurrence of its key. */
  lemma {:induction false} RecordAllFrequency(rows: map<PatternKey, PatternRow>, keys: seq<PatternKey>,
                                              confidence: real, key: PatternKey)
    ensures FrequencyOf(RecordAll(rows, keys, confidence), key) == FrequencyOf(rows, key) + Hits(keys, key)
    decreases |keys|
  {
    if keys != [] {
      var init := keys[..|keys| - 1];
      RecordAllFrequency(rows, init, confidence, key);
      RecordPatternFacts(RecordAll(rows, init, confidence), keys[|keys| - 1], confidence, key);
    }
  }

  /**
   * After recording the keys, each row's sum has gained the confidence once per occurrence of
   * its key, so the stored average is the mean of every confidence the row was detected with.
   */
  lemma {:induction false} RecordAllTotal(rows: map<PatternKey, PatternRow>, keys: seq<PatternKey>,
                                          confidence: real, key: PatternKey)
    ensures TotalOf(RecordAll(rows, keys, confidence), key) == TotalOf(rows, key) + Repeated(confidence, Hits(keys, key))
    decreases |keys|
  {
    if keys != [] {
      var init := keys[..|keys| - 1];
      var mid := RecordAll(rows, init, confidence);
      RecordAllTotal(rows, init, confidence, key);
      RecordPatternFacts(mid, keys[|keys| - 1], confidence, key);
    }
  }

  /** A row whose key does not occur is neither added nor changed. */
  lemma {:induction false} RecordAllUntouched(rows: map<PatternKey, PatternRow>, keys: seq<PatternKey>,
                                              confidence: real, key: PatternKey)
    requires Hits(keys, key) == 0
    ensures key in RecordAll(rows, keys, confidence) <==> key in rows
    ensures key in rows ==> RecordAll(rows, keys, confidence)[key] == rows[key]
    decreases |keys|
  {
    if keys != [] {
      var init := keys[..|keys| - 1];
      RecordAllUntouched(rows, init, confidence, key);
      RecordPatternFacts(RecordAll(rows, init, confidence), keys[|keys| - 1], confidence, key);
    }
  }

  /**
   * A keyword seen for the first time gets a row whose average is the confidence it was
   * detected with, however often it occurs in the list.
   */
  lemma NewRowAverage(rows: map<PatternKey, PatternRow>, keys: seq<PatternKey>, confidence: real, key: PatternKey)
    requires key !in rows && Hits(keys, key) > 0
    ensures key in RecordAll(rows, keys, confidence)
    ensures RecordAll(rows, keys, confidence)[key].avgConfidence == confidence
  {
    var after := RecordAll(rows, keys, confidence);
    var n := Hits(keys, key);
    RecordAllFrequency(rows, keys, confidence, key);
    RecordAllTotal(rows, keys, confidence, key);
    RepeatedIsProduct(confidence, n);
    assert key in after;
    assert after[key].avgConfidence * n as real == confidence * n as real;
  }

  /** Recording keys whose pattern type is their keyword's category keeps the table well formed. */
  lemma {:induction false} RecordAllWellFormed(rows: map<PatternKey, PatternRow>, keys: seq<PatternKey>,
                                               confidence: real)
    requires WellFormed(rows) && 0.0 <= confidence <= 1.0
    requires forall i :: 0 <= i < |keys| ==> keys[i].patternType == CategorizePattern(keys[i].keyword)
    ensures WellFormed(RecordAll(rows, keys, confidence))
    decreases |keys|
  {
    if keys != [] {
      var before := RecordAll(rows, keys[..|keys| - 1], confidence);
      var key := keys[|keys| - 1];
      RecordAllWellFormed(rows, keys[..|keys| - 1], confidence);
      if key in before {
        RunningAverageWithin(before[key].avgConfidence, before[key].frequency, confidence);
      }
    }
  }

  /**
   * Only a PHISHING verdict with keywords changes the table; one that does changes exactly the
   * rows its keywords are filed under, and keeps a well-formed table well formed.
   */
  lemma UpdatedPatternsFacts(rows: map<PatternKey, PatternRow>, classification: Verdict, confidence: real,
                             keywords: seq<string>, institution: string, key: PatternKey)
    ensures classification != Phishing || keywords == [] ==>
      UpdatedPatterns(rows, classification, confidence, keywords, institution) == rows
    ensures classification == Phishing ==>
      FrequencyOf(UpdatedPatterns(rows, classification, confidence, keywords, institution), key)
      == FrequencyOf(rows, key) + Hits(KeysOf(keywords, institution), key)
    ensures WellFormed(rows) && 0.0 <= confidence <= 1.0 ==>
      WellFormed(UpdatedPatterns(rows, classification, confidence, keywords, institution))
  {
    var keys := KeysOf(keywords, institution);
    RecordAllFrequency(rows, keys, confidence, key);
    if WellFormed(rows) && 0.0 <= confidence <= 1.0 {
      RecordAllWellFormed(rows, keys, confidence);
    }
  }

  /** The `phishing_patterns` table as the store keeps it. */
  class PatternStore {
    var rows: map<PatternKey, PatternRow>

    /** An empty table. */
    constructor()
      ensures rows == map[]
    {
      rows := map[];
    }

    /** Files each keyword of a PHISHING verdict under its category, row by row. */
    method UpdatePhishingPatterns(classification: Verdict, confidence: real, keywords: seq<string>,
                                  institution: string)
      modifies this
      ensures rows == UpdatedPatterns(old(rows), classification, confidence, keywords, institution)
    {
      if classification != Phishing || keywords == [] {
        return;
      }
      ghost var keys := KeysOf(keywords, institution);
      for i := 0 to |keywords|
        invariant rows == RecordAll(old(rows), keys[..i], confidence)
      {
        assert keys[..i + 1][..i] == keys[..i];
        var keyword := keywords[i];
        var key := PatternKey(CategorizePattern(keyword), keyword, institution);
        ghost var prev := rows;
        assert key == keys[i];
        if key in rows {
          var freq := rows[key].frequency;
          var avgConf := rows[key].avgConfidence;
          var newAvg := (avgConf * freq as real + confidence) / (freq + 1) as real;
          assert newAvg == RunningAverage(avgConf, freq, confidence);
          rows := rows[key := PatternRow(freq + 1, newAvg)];
        } else {
          rows := rows[key := PatternRow(1, confidence)];
        }
        assert rows == RecordPattern(prev, key, confidence);
      }
      assert keys[..|keys|] == keys;
    }
  }
}
