/**
 * The second stage of `detect_phishing` in `app/core/routes.py`: the detector's
 * prediction is blended 70/30 with the overall URL risk, a high-risk URL forces a
 * PHISHING verdict, and the response's risk factors are the prediction's, then the
 * URL summary's, then the emotional analyzer's.  The route takes these helpers from
 * `app/detector.py` (re-exported by `app/core/__init__.py`), so the URL analysis is
 * the detector copy.
 */
module Routes {
  import opened Wrappers
  import opened Numeric
  import opened Oracles
  import opened UrlExtract
  import opened UrlChecks
  import opened UrlAnalysis
  import opened Predictor
  import Emotional
  import Explainer

  const MlWeight: real := 0.7
  const UrlRiskWeight: real := 0.3
  /** An overall URL risk from which suspicious URLs force PHISHING. */
  const OverrideRisk: real := 50.0
  /** The least confidence reported when the override fires. */
  const OverrideFloor: real := 0.7
  /** The route's own threshold on the blended confidence. */
  const RouteThreshold: real := 0.45

  /** The verdict and confidence the route reports. */
  datatype Decision = Decision(classification: Verdict, confidence: real)

  /** `ml_weight * confidence + url_risk_weight * overall_risk / 100`. */
  function Blend(mlConfidence: real, overallRisk: real): real {
    MlWeight * mlConfidence + UrlRiskWeight * (overallRisk / 100.0)
  }

  /** The override condition of the route. */
  predicate Overrides(urls: UrlFilterResult) {
    urls.hasSuspiciousUrls && urls.overallRisk >= OverrideRisk
  }

  /**
   * The if/elif/else that turns the blend into the final verdict.  The override gives PHISHING
   * with a confidence of at least 0.7 that is either the blend or 0.7; otherwise the
   * confidence is the blend and the verdict is PHISHING exactly when it reaches 0.45.  Either
   * way PHISHING is reported exactly when the confidence reaches 0.45, and inputs in range
   * give a confidence in [0,1].
   */
  function Fuse(mlConfidence: real, urls: UrlFilterResult): (d: Decision)
    ensures var c := Blend(mlConfidence, urls.overallRisk);
      (Overrides(urls) ==>
        d.classification == Phishing && d.confidence >= 0.7 && d.confidence >= c
        && (d.confidence == c || d.confidence == 0.7))
      && (!Overrides(urls) ==> d.confidence == c && (d.classification == Phishing <==> c >= 0.45))
    ensures d.classification == Phishing <==> d.confidence >= 0.45
    ensures 0.0 <= mlConfidence <= 1.0 && 0.0 <= urls.overallRisk <= 100.0 ==> 0.0 <= d.confidence <= 1.0
  {
    var combined := Blend(mlConfidence, urls.overallRisk);
    if Overrides(urls) then Decision(Phishing, Max(combined, OverrideFloor))
    else if combined >= RouteThreshold then Decision(Phishing, combined)
    else Decision(Legitimate, combined)
  }

  /** A higher ML confidence never lowers the final confidence nor turns PHISHING into LEGITIMATE. */
  lemma FuseMonotone(ml1: real, ml2: real, urls: UrlFilterResult)
    requires ml1 <= ml2
    ensures Fuse(ml1, urls).confidence <= Fuse(ml2, urls).confidence
    ensures Fuse(ml1, urls).classification == Phishing ==> Fuse(ml2, urls).classification == Phishing
  {
  }

  /**
   * On a result `filter_urls` actually produces, an overall risk of 50 or more already implies
   * a HIGH URL, so `has_suspicious_urls` adds nothing to the override condition.
   */
  lemma OverrideNeedsOnlyRisk(ctx: Context, text: string, order: seq<string>)
    requires Enumerates(order, ExtractUrls(ctx.copy, text))
    ensures var urls := FilterUrls(ctx, text, order);
      Overrides(urls) <==> urls.overallRisk >= 50.0
  {
    if order != [] {
      FilterUrlsFacts(ctx, text, order);
    }
  }

  /** Each element of `xs` printed by `render`, in order. */
  function Rendered<T>(xs: seq<T>, render: T -> string): (r: seq<string>)
    ensures |r| == |xs|
  {
    seq(|xs|, k requires 0 <= k < |xs| => render(xs[k]))
  }

  /**
   * `risk_factors` of the response: `risk_factors_from_prediction(pred)` (the detector
   * variant), extended by the URL summary lines, extended by the emotional analysis's
   * risk factors.  `showReal` prints a float as Python's `str`, `show2` with two decimals.
   */
  function RiskFactorLines(p: Prediction, urls: UrlFilterResult,
                           showReal: real -> string, show2: real -> string): seq<string>
  {
    Rendered(Explainer.DetectorRiskFactors(p), (f: Explainer.Factor) => f.Render(showReal, show2))
    + Rendered(UrlRiskSummary(urls), (l: SummaryLine) => l.Render(showReal))
    + Rendered(p.emotional.riskFactors, (e: Emotional.EmotionFactor) => e.Render(showReal))
  }

  /**
   * The prediction factors come first, then the URL summary, then the emotional factors, each
   * block in its own order; the URL block always starts at the same place with the
   * no-URL line or the count line, so the list is never empty.
   */
  lemma RiskFactorsLayout(p: Prediction, urls: UrlFilterResult,
                          showReal: real -> string, show2: real -> string)
    ensures var r := RiskFactorLines(p, urls, showReal, show2);
      var a := Explainer.DetectorRiskFactors(p);
      var b := UrlRiskSummary(urls);
      var e := p.emotional.riskFactors;
      |r| == |a| + |b| + |e| && |b| >= 1
      && (forall k :: 0 <= k < |a| ==> r[k] == a[k].Render(showReal, show2))
      && (forall k :: 0 <= k < |b| ==> r[|a| + k] == b[k].Render(showReal))
      && (forall k :: 0 <= k < |e| ==> r[|a| + |b| + k] == e[k].Render(showReal))
      && r[|a|] == (if urls.urlsFound == 0 then "No URLs detected in email"
                    else FoundLine(urls.urlsFound).Render(showReal))
  {
    var a := Explainer.DetectorRiskFactors(p);
    var b := UrlRiskSummary(urls);
    var ra := Rendered(a, (f: Explainer.Factor) => f.Render(showReal, show2));
    var rb := Rendered(b, (l: SummaryLine) => l.Render(showReal));
    assert |b| >= 1 && b[0] == (if urls.urlsFound == 0 then NoUrlsLine else FoundLine(urls.urlsFound));
    assert rb[0] == b[0].Render(showReal);
  }

  /** The part of the `/detect` response this model computes. */
  datatype Response = Response(classification: Verdict, confidence: real, riskFactors: seq<string>)

  /**
   * `detect_phishing` from the prediction on (the request has non-empty text and the models
   * are loaded): no headers reach `predict_phishing`, and the URLs of the text, taken in
   * the iteration order `order`, feed both the prediction and the detector's `filter_urls`.
   */
  function Detect(engine: Engine, lib: Stdlib, text: string, scores: Scores, ctx: Context,
                  order: seq<string>, showReal: real -> string, show2: real -> string): Response
    requires ctx.copy == DetectorCopy && Enumerates(order, ExtractUrls(DetectorCopy, text))
  {
    var pred := PredictionOf(engine, lib, text, scores, map[], order);
    var urls := FilterUrls(ctx, text, order);
    var d := Fuse(pred.confidence, urls);
    Response(d.classification, d.confidence, RiskFactorLines(pred, urls, showReal, show2))
  }

  /**
   * With classifier answers in [0,1], the route's confidence lies in [0,1], PHISHING is
   * reported exactly when it reaches 0.45, an overall URL risk of 50 or more alone forces
   * PHISHING with confidence at least 0.7, and the risk-factor list is never empty.
   */
  lemma DetectFacts(engine: Engine, lib: Stdlib, text: string, scores: Scores, ctx: Context,
                    order: seq<string>, showReal: real -> string, show2: real -> string)
    requires ctx.copy == DetectorCopy && Enumerates(order, ExtractUrls(DetectorCopy, text))
    requires ScoresInRange(scores)
    ensures var r := Detect(engine, lib, text, scores, ctx, order, showReal, show2);
      0.0 <= r.confidence <= 1.0
      && (r.classification == Phishing <==> r.confidence >= 0.45)
      && (FilterUrls(ctx, text, order).overallRisk >= 50.0 ==>
            r.classification == Phishing && r.confidence >= 0.7)
      && |r.riskFactors| >= 1
  {
    var pred := PredictionOf(engine, lib, text, scores, map[], order);
    var urls := FilterUrls(ctx, text, order);
    PredictionFacts(engine, lib, text, scores, map[], order);
    if order == [] {
      FilterNoUrls(ctx, text, order);
    } else {
      FilterUrlsFacts(ctx, text, order);
    }
    OverrideNeedsOnlyRisk(ctx, text, order);
    RiskFactorsLayout(pred, urls, showReal, show2);
  }
}
