/**
 * The fixed tables of `app/config.py` that the engine reads.  They are data with
 * no behaviour; the engine never changes them.
 */
module Config {

  /** `SUSPICIOUS_TLDS`. */
  const SuspiciousTlds: seq<string> := [".tk", ".ml", ".ga", ".cf", ".gq", ".xyz", ".top", ".work"]

  /** `URL_SHORTENERS`. */
  const UrlShorteners: seq<string> := ["bit.ly", "t.co", "tinyurl.com", "goo.gl", "ow.ly", "is.gd", "buff.ly"]

  /** `DETECTION_WEIGHTS['ai_ml']`. */
  const AiMlWeight: real := 0.60

  /** `EXPLAINER_CONFIG`: escaping is on, the tag is `span`, the class `risk-high`, the urgency threshold 6. */
  const EscapeHtml: bool := true
  const HighlightTag: string := "span"
  const HighlightClass: string := "risk-high"
  const UrgencyThreshold: real := 6.0
}
