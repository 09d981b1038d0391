/**
 * `comprehensive_phishing_detection` in `app/utils/advanced_detection.py`: the ML
 * confidence (scaled to 0-100) and the URL overall risk are weighted 60/40, attachments
 * add a bonus of at most 20, the total is clamped to [0,100], and a four-level ladder
 * chooses the recommendations.  The ML and URL outputs are inputs; `headers` and
 * `user_id` are accepted and never read.
 */
module Combiner {
  import opened Wrappers
  import opened Numeric
  import opened Config
  import opened UrlAnalysis

  /** Points per attachment, and the most that attachments add. */
  const AttachmentPoints: nat := 10
  const AttachmentCap: nat := 20

  /** `w_url`: 0.4 for the configured AI weight 0.6, else the complement of the AI weight. */
  function UrlWeight(aiWeight: real): real {
    if aiWeight == 0.6 then 0.4 else 1.0 - aiWeight
  }

  /** `min(10 * len(attachments), 20)` when there are attachments, else nothing. */
  function AttachmentBonus(count: nat): nat {
    if count == 0 then 0
    else if AttachmentPoints * count <= AttachmentCap then AttachmentPoints * count
    else AttachmentCap
  }

  /** The score before the clamp. */
  function RawScore(mlConfidence: real, urlRisk: real, attachmentCount: nat): real {
    AiMlWeight * (mlConfidence * 100.0) + UrlWeight(AiMlWeight) * urlRisk
    + AttachmentBonus(attachmentCount) as real
  }

  /** `max(0.0, min(100.0, overall))`. */
  function Clamp(x: real): (r: real)
    ensures 0.0 <= r <= 100.0
    ensures 0.0 <= x <= 100.0 ==> r == x
    ensures x < 0.0 ==> r == 0.0
    ensures x > 100.0 ==> r == 100.0
  {
    Max(0.0, Min(100.0, x))
  }

  /** The unrounded overall score the level is computed from. */
  function Overall(mlConfidence: real, urlRisk: real, attachmentCount: nat): real {
    Clamp(RawScore(mlConfidence, urlRisk, attachmentCount))
  }

  /** The ladder: HIGH from 70, MEDIUM from 40, LOW from 10, else SAFE. */
  function LevelOf(overall: real): (l: RiskLevel)
    ensures l == High <==> overall >= 70.0
    ensures l == Medium <==> 40.0 <= overall < 70.0
    ensures l == Low <==> 10.0 <= overall < 40.0
    ensures l == Safe <==> overall < 10.0
  {
    if overall >= 70.0 then High
    else if overall >= 40.0 then Medium
    else if overall >= 10.0 then Low
    else Safe
  }

  /** The position of a level on the ladder. */
  function Rank(l: RiskLevel): nat {
    match l
    case Safe => 0
    case Low => 1
    case Medium => 2
    case High => 3
  }

  /** One line of advice; `Text` is the sentence the service returns. */
  datatype Advice =
    | Quarantine | ResetPasswords | ReportToSecurity | VerifySender | InspectLinks | Monitor | Educate
  {
    function Text(): string {
      match this
      case Quarantine => "Quarantine the email and do not click links or open attachments."
      case ResetPasswords => "Reset passwords if you submitted credentials recently."
      case ReportToSecurity => "Report the email to the security team and block sender if confirmed malicious."
      case VerifySender => "Do not click links until verifying sender identity."
      case InspectLinks => "Hover over links to inspect destinations; do not provide credentials."
      case Monitor => "Monitor the email but no immediate action required."
      case Educate => "Educate the recipient about safe email practices."
    }
  }

  /** The advice for each level; LOW and SAFE share one list. */
  function Recommendations(level: RiskLevel): seq<Advice> {
    if level == High then [Quarantine, ResetPasswords, ReportToSecurity]
    else if level == Medium then [VerifySender, InspectLinks]
    else [Monitor, Educate]
  }

  /** The returned dictionary, with `ml_output` reduced to its confidence. */
  datatype Assessment = Assessment(
    riskLevel: RiskLevel,
    overallRiskScore: real,
    mlConfidence: real,
    urlOutput: UrlFilterResult,
    recommendations: seq<Advice>)

  /** `comprehensive_phishing_detection(email_text, headers, attachments, user_id)`. */
  function ComprehensiveDetection(mlConfidence: real, urlOutput: UrlFilterResult, attachments: seq<string>,
                                  headers: map<string, string>, userId: Option<string>): Assessment
  {
    var overall := Overall(mlConfidence, urlOutput.overallRisk, |attachments|);
    var level := LevelOf(overall);
    Assessment(level, Round2(overall), mlConfidence, urlOutput, Recommendations(level))
  }

  /** The two weights always sum to 1, and the configured AI weight gives a URL weight of 0.4. */
  lemma WeightsFacts(aiWeight: real)
    ensures aiWeight + UrlWeight(aiWeight) == 1.0
    ensures UrlWeight(AiMlWeight) == 0.4
  {
  }

  /**
   * Attachments add nothing without attachments, 10 for one, 20 for two or more, never more
   * than 20, and more attachments never add less.
   */
  lemma AttachmentBonusFacts(m: nat, n: nat)
    requires m <= n
    ensures AttachmentBonus(0) == 0 && AttachmentBonus(1) == 10
    ensures n >= 2 ==> AttachmentBonus(n) == 20
    ensures AttachmentBonus(n) <= 20
    ensures AttachmentBonus(m) <= AttachmentBonus(n)
  {
  }

  /**
   * The overall score lies in [0,100]; with inputs in range and no attachments the clamp is idle
   * and the score is 60·confidence + 0.4·overall_risk.
   */
  lemma OverallFacts(mlConfidence: real, urlRisk: real, attachmentCount: nat)
    ensures 0.0 <= Overall(mlConfidence, urlRisk, attachmentCount) <= 100.0
    ensures 0.0 <= mlConfidence <= 1.0 && 0.0 <= urlRisk <= 100.0 && attachmentCount == 0 ==>
      Overall(mlConfidence, urlRisk, attachmentCount) == 60.0 * mlConfidence + 0.4 * urlRisk
  {
    WeightsFacts(AiMlWeight);
  }

  /** Neither a higher confidence, a higher URL risk nor more attachments lowers the overall score. */
  lemma OverallMonotone(c1: real, c2: real, u1: real, u2: real, n1: nat, n2: nat)
    requires c1 <= c2 && u1 <= u2 && n1 <= n2
    ensures Overall(c1, u1, n1) <= Overall(c2, u2, n2)
  {
    AttachmentBonusFacts(n1, n2);
    assert RawScore(c1, u1, n1) <= RawScore(c2, u2, n2);
  }

  /** A higher score never gives a lower level. */
  lemma LevelMonotone(x: real, y: real)
    requires x <= y
    ensures Rank(LevelOf(x)) <= Rank(LevelOf(y))
  {
  }

  /**
   * Three recommendations for HIGH and two otherwise, never one twice; LOW and SAFE get the
   * same two, and no advice is given at two different levels of the upper three.
   */
  lemma RecommendationsFacts(level: RiskLevel, other: RiskLevel)
    ensures |Recommendations(level)| == (if level == High then 3 else 2)
    ensures forall i, j :: 0 <= i < j < |Recommendations(level)| ==>
      Recommendations(level)[i] != Recommendations(level)[j]
    ensures Recommendations(Low) == Recommendations(Safe)
    ensures Rank(level) >= 1 && Rank(other) >= 1 && level != other ==>
      forall a :: a in Recommendations(level) ==> a !in Recommendations(other)
  {
  }

  /**
   * The reported score is the overall score rounded to two places and lies in [0,100]; the
   * level is the ladder on the unrounded score, and the recommendations follow the level.
   */
  lemma ComprehensiveFacts(mlConfidence: real, urlOutput: UrlFilterResult, attachments: seq<string>,
                           headers: map<string, string>, userId: Option<string>)
    ensures var a := ComprehensiveDetection(mlConfidence, urlOutput, attachments, headers, userId);
      var overall := Overall(mlConfidence, urlOutput.overallRisk, |attachments|);
      0.0 <= a.overallRiskScore <= 100.0
      && overall - 0.005 <= a.overallRiskScore <= overall + 0.005
      && (a.riskLevel == High <==> overall >= 70.0)
      && |a.recommendations| == (if a.riskLevel == High then 3 else 2)
      && a.urlOutput == urlOutput
  {
    var overall := Overall(mlConfidence, urlOutput.overallRisk, |attachments|);
    Round2Within(overall, 0, 10000);
    RecommendationsFacts(LevelOf(overall), LevelOf(overall));
  }

  /** `headers` and `user_id` never change the assessment. */
  lemma HeadersAndUserIgnored(mlConfidence: real, urlOutput: UrlFilterResult, attachments: seq<string>,
                              h1: map<string, string>, h2: map<string, string>,
                              u1: Option<string>, u2: Option<string>)
    ensures ComprehensiveDetection(mlConfidence, urlOutput, attachments, h1, u1)
         == ComprehensiveDetection(mlConfidence, urlOutput, attachments, h2, u2)
  {
  }

  /**
   * The level is taken before rounding: a confidence of 29.996/60 with a URL risk of 100 and
   * no attachments reports a score of 70.0 at level MEDIUM.
   */
  lemma LevelBeforeRounding(urlOutput: UrlFilterResult, headers: map<string, string>, userId: Option<string>)
    requires urlOutput.overallRisk == 100.0
    ensures var a := ComprehensiveDetection(29.996 / 60.0, urlOutput, [], headers, userId);
      a.overallRiskScore == 70.0 && a.riskLevel == Medium
  {
    var overall := Overall(29.996 / 60.0, 100.0, 0);
    OverallFacts(29.996 / 60.0, 100.0, 0);
    assert overall == 69.996;
    assert (overall * 100.0).Floor == 6999;
  }
}
