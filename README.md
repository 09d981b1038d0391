# Phishing verdict engine: a Dafny model

This project models the deterministic core of an academic phishing-email detector.
The engine reads the text of an e-mail and reaches a verdict and an explanation.

1. **Heuristic scorers** (`Predictor`). Several scorers read the text:
   - an urgency score over a weighted phrase table;
   - whole-word academic keywords;
   - six phishing-indicator categories;
   - SPF/DKIM/DMARC header trust;
   - a coarse URL flag.

   `predict_phishing` fuses these with the classifiers' ensemble score and the emotional analyzer's hidden-meaning score. A six-term weighted sum is compared with the threshold 0.45.
2. **URL risk analyzer** (`UrlExtract`, `UrlParse`, `UrlChecks`, `UrlAnalysis`).
   - URLs are extracted from the text and parsed the way `urlparse` splits them.
   - Six host and path predicates are evaluated.
   - Each URL gets an additive score and a level.
   - The reports are averaged into an overall risk, summarised as text, and turned into an 8-element feature vector.

   There are two copies of this code. `app/core/url_filter.py` is the core copy. `app/detector.py` holds a second copy, and the live route uses that one. They differ in their IP and `www.` patterns and in `resolve_shortener`. A `Copy` value chooses between them, and each is modelled as written.
3. **Emotional tone analyzer** (`Emotional`).
   - Six weighted pattern categories each get a normalised score.
   - A word-list sentiment is computed.
   - A 0-100 hidden-meaning composite, emotional conflicts, a manipulation tier and risk-factor lines are derived from these.
   - Each of these derived steps falls back on its own.
4. **Explainability** (`Explainer`). This covers two things:
   - escape-then-highlight;
   - the ordered risk-factor lines, in two variants: the core explainer, and the older one in `app/detector.py` that the route uses.

   `WordAnalysis` covers the per-token flags of `word_level_analysis`.
5. **Second-stage fusion** (`Routes`). The route blends the prediction 70/30 with the URL overall risk, applies an override for high-risk URLs, and concatenates the three blocks of risk factors.
6. **Compact combiner** (`Combiner`). `comprehensive_phishing_detection` produces a clamped 60/40 score with an attachment bonus, a four-level ladder and recommendations.
7. **Analytics helpers** (`Analytics`, `Patterns`). These are the database helpers with the SQL stripped:
   - `categorize_pattern`;
   - the keyword column of `log_prediction` and its read-back;
   - the top-keyword aggregation;
   - the running-average pattern table of `update_phishing_patterns`.

The classifiers, the regular-expression engine and the Unicode database are parameters. The category functions of `Emotional` take the pattern table as a parameter; the analyzer passes `EmotionalPatterns`, the table of `EMOTIONAL_PATTERNS`, so the facts about categories hold for any table whose intensities lie in 4..9. `Oracles.Engine` answers `re.search`, `re.findall` and the anchor scan. `Oracles.Stdlib` answers NFKC, character names, the `\w` and digit classes, and `ipaddress.ip_address`. `Predictor.Scores` carries what each loaded model answered.

Some of the Python is written out concretely in the model:
- the URL extraction patterns;
- the two IP patterns;
- the `\b...\b` keyword search of `extract_academic_keywords`;
- the highlight substitution;
- `str.count`, `str.replace`, `split`/`join`/`strip` and ASCII `lower`;
- the `re.IGNORECASE` matching of the URL patterns, including the four non-ASCII letters it folds onto ASCII ones: U+0130 and U+0131 onto 'i', U+017F onto 's', and the Kelvin sign U+212A onto 'k';
- `urllib.parse.urlparse` as Python 3.11.4 and 3.12 write it. This includes every `ValueError` it raises on a netloc:
  - unbalanced brackets;
  - a bracketed host that is neither an IPvFuture literal nor an IPv6 address (`_check_bracketed_host`);
  - a non-ASCII netloc whose NFKC form brings in '/', '?', '#', '@' or ':' (`_checknetloc`).

Loops in the source become Dafny methods with loop invariants. Each such method is proved equal to a specification function, and the properties are lemmas about those functions. The pattern table of `update_phishing_patterns` is a class whose `rows` map the method updates in place. A value the source reads from an unordered `set` is taken in an arbitrary enumeration `order` of that set. Facts that do not depend on this order are proved for every enumeration.

## Model

| member | source | states |
|---|---|---|
| Predictor.UrgencyScore | app/detector.py:87-104 | `calculate_urgency_score`: the weighted count of the urgency phrases in the lowercased text, divided by the number of occurrences and capped at 10; CalculateUrgencyScore computes it and UrgencyRange bounds it |
| Predictor.HeaderRisk | app/detector.py:207-228 | the header risk of `predict_phishing`: 1 minus the mean of the SPF, DKIM and DMARC pass flags of `Authentication-Results`; HeaderRiskFacts states its values |
| Predictor.PredictionOf | app/detector.py:126-256 | `predict_phishing`: the six-term weighted sum of ensemble, emotional, indicator, urgency, header and URL risks, PHISHING at 0.45 or more; PredictionFacts and PredictionOrderFree state its properties |
| Predictor.TallyUrgency | app/detector.py:96-103 | the phrase loop computes the weighted sum and the number of occurrences, each phrase counted on its own |
| Predictor.CalculateUrgencyScore | app/detector.py:87-104 | the method computes the urgency score: the weighted sum divided by max(count, 1), capped at 10 |
| Predictor.UrgencyTallyBounds | app/detector.py:88-103 | every phrase weighs 6 to 10, so the weighted sum lies between 6 and 10 times the count |
| Predictor.UrgencyCountZero | app/detector.py:96-103 | no occurrence is counted iff none of the phrases occurs in the text |
| Predictor.UrgencyRange | app/detector.py:87-104 | the score is 0 iff no table phrase occurs in the lowercased text; otherwise it lies in [6, 10] |
| Predictor.NowCountedInsideWords | app/detector.py:96-100 | phrases are substring counts: "now" is counted once in "act now" and once in "i know" |
| Predictor.FilterKeywords | app/detector.py:109-112 | the keyword loop keeps the table entries that pass the whole-word search, in table order |
| Predictor.ExtractAcademicKeywords | app/detector.py:107-113 | the method returns the whole-word keyword list of the lowercased text |
| Predictor.KeywordsMembership | app/detector.py:109-112 | a keyword is kept iff it is a table entry and occurs as a whole word |
| Predictor.KeywordsInTableOrder | app/detector.py:109-112 | kept keywords are table entries at strictly increasing indices |
| Predictor.KeywordsDistinct | app/detector.py:24-29 | a table without repeats yields keywords without repeats |
| Predictor.AcademicKeywordsFacts | app/detector.py:107-113 | the result holds exactly the `ACADEMIC_KEYWORDS` entries that occur as whole words in the lowercased text, each once, in table order |
| Predictor.AcademicKeywordsDistinct | app/detector.py:24-29 | `ACADEMIC_KEYWORDS` holds no entry twice |
| Predictor.GluedKeywordNotWhole | app/detector.py:111 | a keyword preceded by a word character is not a whole-word occurrence at that place |
| Predictor.MatchingUpTo | app/detector.py:118-122 | no more categories match than were tried |
| Predictor.CountIndicators | app/detector.py:118-122 | the category loop counts the categories whose pattern is found |
| Predictor.CalculatePhishingIndicatorsScore | app/detector.py:116-123 | the method computes the indicator score of the lowercased text |
| Predictor.MatchingZero | app/detector.py:118-122 | no category matches iff no tried pattern is found |
| Predictor.IndicatorsFacts | app/detector.py:31-38 | the score is 10·k/6 for the number k ≤ 6 of matching categories, lies in [0, 10], and is 0 iff no category matches |
| Predictor.HeaderRiskFacts | app/detector.py:207-228 | header risk is 1 − n/3 for the n of SPF/DKIM/DMARC passes, lies in [0, 1], is 1 for no headers, and is 0 iff all three pass |
| Predictor.FlagsOfAll | app/detector.py:197-205 | each URL's flags are computed by the detector copy's shortener, TLD, IP and path checks, in order |
| Predictor.CoarseUrlRisk | app/detector.py:197-205 | the loop, which stops at the first strong flag, gives 1 if some URL is a shortener, TLD or IP host, else 0.7 if some path is suspicious, else 0 |
| Predictor.CoarseRiskValues | app/detector.py:197-205 | the URL flag is one of 0, 0.7 and 1 |
| Predictor.CoarseRiskOrderFree | app/detector.py:197-205 | the URL flag depends only on which flags occur, not on their order |
| Predictor.FlagsOrderFree | app/detector.py:196-205 | two enumerations of the same URL set give the same URL flag |
| Predictor.SelectEnsemble | app/detector.py:133-186 | the method computes the ensemble score and `model_probs`: the pipeline, and the fallback mean only while the score is exactly 0 |
| Predictor.EnsembleFacts | app/detector.py:126-186 | a non-zero pipeline answer is used alone; with no model the score is 0 and `model_probs` is empty; answers in [0, 1] give a score in [0, 1] |
| Predictor.SumBounds | app/detector.py:185-186 | a sum of n values in [0, 1] lies in [0, n] |
| Predictor.VerdictOf | app/detector.py:243 | PHISHING iff the score reaches 0.45 |
| Predictor.WeightsSumToOne | app/detector.py:233-240 | the six fusion weights sum to 1 |
| Predictor.FinalScoreRange | app/detector.py:233-240 | in-range inputs give a fused score in [0, 1] |
| Predictor.FinalScoreMonotone | app/detector.py:233-240 | raising any input never lowers the fused score |
| Predictor.EmotionalRiskInRange | app/detector.py:193-194 | the emotional term, hidden meaning over 100, lies in [0, 1] |
| Predictor.PredictPhishing | app/detector.py:126-254 | the method assembles the returned record from the scorers, the emotional analysis, the header risk and the URL flag |
| Predictor.PredictionFacts | app/detector.py:233-254 | PHISHING iff the confidence reaches 0.45; classifier answers in [0, 1] give a confidence in [0, 1]; no headers give header risk 1 |
| Predictor.PredictionOrderFree | app/detector.py:195-205 | the prediction does not depend on the iteration order of the extracted URL set |
| UrlParse.Parse | app/core/url_filter.py:64 | `urlparse` of the URL with tabs and newlines deleted: `ValueError` iff the netloc has unbalanced brackets, an invalid bracketed host or an NFKC form that brings in a separator; otherwise the six components, which ParseRoundTrip reassembles |
| UrlParse.FirstOf | app/core/url_filter.py:64 | the index of the first stop character: none occurs before it |
| UrlParse.AfterLast | app/core/url_filter.py:64 | the index just after the last occurrence of a character: none occurs after it |
| UrlParse.WithoutUnsafe | app/core/url_filter.py:64 | `urlsplit` deletes every tab, carriage return and newline |
| UrlParse.Deleted | app/core/url_filter.py:64 | deleting the characters of a set, as `urlsplit` and `_checknetloc` do, leaves none of them |
| UrlParse.DeletedNothing | app/core/url_filter.py:64 | a text holding none of the characters is left as it is |
| UrlParse.SplitScheme | app/core/url_filter.py:64 | the scheme and the rest reassemble, with their ':', into the input |
| UrlParse.SplitNetloc | app/core/url_filter.py:64 | the netloc after "//" and the rest reassemble into the input, and the netloc holds no '/', '?' or '#' |
| UrlParse.SplitAt | app/core/url_filter.py:64 | the text before the first delimiter and the text after it reassemble into the input |
| UrlParse.SplitParams | app/core/url_filter.py:64 | the path and the parameters after the last segment's ';' reassemble into the input |
| UrlParse.PathAndParams | app/core/url_filter.py:64 | parameters are split off only for `uses_params` schemes; path and parameters reassemble into the input |
| UrlParse.Host | app/core/url_filter.py:65 | the netloc when non-empty, else a prefix of the path free of '/' |
| UrlParse.UnsplitSplit | app/core/url_filter.py:64 | reassembling the split components gives the sanitised URL back exactly |
| UrlParse.ParseRoundTrip | app/core/url_filter.py:64 | a successful parse reassembles to the sanitised URL |
| UrlParse.NetlocHasNoDelimiter | app/core/url_filter.py:83-84 | a netloc never holds '/', '?' or '#' |
| UrlParse.SanitizedHostHasNoNewline | app/core/url_filter.py:64-67 | the host the anchored IP pattern sees holds no newline |
| UrlParse.AsciiNetlocPassesNfkc | app/core/url_filter.py:64 | `_checknetloc` never refuses an ASCII netloc, whatever NFKC does |
| UrlParse.PlainNetlocParses | app/core/url_filter.py:64 | a netloc without brackets that passes the NFKC test never makes `urlparse` raise |
| UrlParse.FullwidthColonRaises | app/core/url_filter.py:64 | the netloc `a\U{FF1A}b.com`, normalised by NFKC to `a:b.com`, makes `urlparse` raise |
| UrlParse.BracketedNameRaises | app/core/url_filter.py:64 | the netloc `[x].tk`, whose bracketed host is no IPv6 address, makes `urlparse` raise |
| UrlParse.FirstOfAt | app/core/url_filter.py:64 | the first stop character is at k when none occurs before k and one occurs at k |
| UrlExtract.ExtractUrls | app/core/url_filter.py:33-51 | `extract_urls`: the set of the http(s) matches of `findall` and of "http://" before each `www.` match, with the `www` pattern of the core copy or of the detector copy (app/detector.py:259-265); FoundIsMatch, LeftmostMatchFound and ExtractedAreHttp state what each match is |
| UrlExtract.RunLength | app/core/url_filter.py:43-48 | the greedy run of the body group under `re.IGNORECASE`: every character in it is a URL character and the next one is not. URL characters are ASCII letters and digits, the range '$'..'_' (so '<', '>', '[', ']' and '^' are admitted), `! * \ ( ) ,`, and the four letters U+0130, U+0131, U+017F and U+212A; '#', '~', '"', white space and every other non-ASCII character end the run |
| UrlExtract.MatchEnd | app/core/url_filter.py:43-48 | a match ends after its start, within the text, or there is none |
| UrlExtract.FoundIsMatch | app/core/url_filter.py:43-48 | every string `findall` returns is a slice of the text at which the pattern matches |
| UrlExtract.SkipNoMatch | app/core/url_filter.py:43-48 | `findall` skips the positions where no match starts |
| UrlExtract.LeftmostMatchFound | app/core/url_filter.py:43-48 | `findall` is leftmost-first: with no match in i..a and one at a, it reports that match next and resumes where it ends |
| UrlExtract.NoMatchNothingFound | app/core/url_filter.py:43-48 | with no match starting at or after i, `findall` finds nothing |
| UrlExtract.ExtractedAreHttp | app/core/url_filter.py:33-51 | every extracted URL starts with http:// or https:// as `re.IGNORECASE` matches it (any case, and 's' also as U+017F), and is longer than 7 characters |
| UrlExtract.DetectorWwwNeedsBackslash | app/detector.py:262 | the detector copy's `www\\.` pattern finds nothing in text without a backslash |
| UrlExtract.DetectorExtractsOnlyHttp | app/detector.py:259-265 | in the detector copy, text without a backslash yields only the http(s) matches |
| UrlExtract.BareHostExtraction | app/core/url_filter.py:46-51 | bare "www.ab" becomes "http://www.ab" in the core copy and yields nothing in the detector copy |
| UrlExtract.WwwInsideHttpExtractedTwice | app/core/url_filter.py:33-51 | "https://www.ab" is extracted as itself and again as "http://www.ab" |
| UrlExtract.HttpPrefixed | app/core/url_filter.py:33-51 | "http://" followed by URL characters holding no 'w' is extracted whole and alone |
| UrlExtract.WholeHttpUrl | app/core/url_filter.py:33-51 | a text that is one `http://` URL without a 'w' is extracted as itself and nothing else |
| UrlExtract.DotlessIExtracted | app/core/url_filter.py:43-48 | "http://p\U{0131}ypal.com" is extracted whole: under `re.IGNORECASE` the dotless i is a letter |
| UrlChecks.IsIpAddressUrl | app/core/url_filter.py:54-70 | `is_ip_address_url`: false when `urlparse` raises; otherwise the copy's anchored IP pattern on the host (app/detector.py:268-275 for the detector copy); CoreIpCheck and DetectorIpCheck state it |
| UrlChecks.IsUrlShortener | app/core/url_filter.py:73-87 | `is_url_shortener`: false when `urlparse` raises; otherwise a shortener domain is a substring of the lowercased netloc; NetlocChecks states it |
| UrlChecks.HasSuspiciousTld | app/core/url_filter.py:90-104 | `has_suspicious_tld`: false when `urlparse` raises; otherwise the lowercased netloc ends with a suspicious TLD; NetlocChecks states it |
| UrlChecks.CheckHomographAttack | app/core/url_filter.py:107-154 | `check_homograph_attack`: false when `urlparse` raises; otherwise an ACE label flags, an ASCII NFKC form does not, and otherwise more than one Unicode block does; AcePrefixFlags to SingleBlockNotFlagged state it |
| UrlChecks.HasExcessiveSubdomains | app/core/url_filter.py:172-188 | `has_excessive_subdomains`: false when `urlparse` raises; otherwise the netloc has more than three dots; SubdomainCheck states it |
| UrlChecks.CheckSuspiciousPath | app/core/url_filter.py:191-214 | `check_suspicious_path`: false when `urlparse` raises; otherwise a path keyword occurs in the lowercased path followed by the lowercased query; PathCheck states it |
| UrlChecks.UrlToCheck | app/core/url_filter.py:245-250 | the homograph check sees the URL or its resolved form; in the detector copy always the URL |
| UrlChecks.HttpUrlHost | app/core/url_filter.py:64-65 | an http URL with a bracket-free host parses unless the host fails the NFKC test, and its netloc and checked host are that host |
| UrlChecks.HttpParse | app/core/url_filter.py:64-65 | an http URL parses unless its host makes `urlparse` raise, and its netloc and checked host are that host |
| UrlChecks.CoreIpCheck | app/core/url_filter.py:54-70 | the core IP check flags an http URL with a bracket-free host iff the host is four dot-separated 1-3 digit groups |
| UrlChecks.DottedQuadIsAscii | app/core/url_filter.py:66 | a dotted quad holds only ASCII characters, so it passes the NFKC test |
| UrlChecks.DetectorIpCheck | app/detector.py:268-275 | the detector IP check never flags a host without a backslash, dotted quads included |
| UrlChecks.DottedQuadOf | app/core/url_filter.py:66 | any four 1-3 digit groups joined by dots form a dotted quad |
| UrlChecks.DottedQuadExamples | app/core/url_filter.py:66 | 192.168.1.1 and 999.999.999.999 are both dotted quads: octet values are not checked |
| UrlChecks.IpUrlExample | app/detector.py:272 | http://192.168.1.1/login is an IP URL to the core copy and not to the detector copy |
| UrlChecks.NetlocChecks | app/core/url_filter.py:73-104 | for an http URL with a bracket-free host, the shortener check holds iff the host passes the NFKC test and a shortener is a substring of the lowercased host; the TLD check iff it passes and the lowercased host ends with a suspicious TLD |
| UrlChecks.SubdomainCheck | app/core/url_filter.py:172-188 | for an http URL with a bracket-free host, the subdomain check holds iff the host passes the NFKC test and has more than three dots |
| UrlChecks.PathCheck | app/core/url_filter.py:191-214 | a path without '?', '#' or ';' is flagged iff the host passes the NFKC test and a path keyword occurs in the lowercased path |
| UrlChecks.ShortenerSubstringExample | app/core/url_filter.py:83-85 | "microsoft.com" counts as a shortener because it contains "t.co" |
| UrlChecks.AcePrefixFlags | app/core/url_filter.py:129-131 | an ACE label (xn--) at the start or after a dot always flags the host |
| UrlChecks.AsciiHostNotFlagged | app/core/url_filter.py:134-136 | with no ACE label, a host whose NFKC form is ASCII is never flagged |
| UrlChecks.MixedAsciiFlagged | app/core/url_filter.py:140-152 | an NFKC form that mixes ASCII with other characters is flagged |
| UrlChecks.SingleBlockNotFlagged | app/core/url_filter.py:140-152 | an NFKC form whose characters all come from one named block is not flagged |
| UrlChecks.RaisingUrlFailsEveryCheck | app/core/url_filter.py:54-214 | a URL on which `urlparse` raises fails all six checks, through their `except` branches |
| UrlChecks.BracketedHostUrlFailsChecks | app/core/url_filter.py:54-214 | "http://[x].tk/login" fails all six checks, the TLD and path checks included, because its bracketed host is no IPv6 address |
| UrlAnalysis.AnalyzeSingleUrl | app/core/url_filter.py:217-281 | the method runs the six checks, with the homograph check on the resolved URL, then scores them |
| UrlAnalysis.ScoreChecks | app/core/url_filter.py:226-274 | the scoring steps give the report of the fired checks |
| UrlAnalysis.IssuesAreFiredChecks | app/core/url_filter.py:226-264 | an issue is recorded iff its check fires |
| UrlAnalysis.IssuesInCheckOrder | app/core/url_filter.py:226-264 | issues appear in check order, so none is recorded twice |
| UrlAnalysis.RawScore | app/core/url_filter.py:226-264 | the score sums the 30/25/20/35/15/10 points of the recorded issues and never exceeds 135 |
| UrlAnalysis.ScoreAndLevel | app/core/url_filter.py:266-274 | the score is the sum capped at 100; the level is HIGH at 50 or more, MEDIUM at 30-49, SAFE under 10, from the uncapped sum |
| UrlAnalysis.HighNeedsTwoIssues | app/core/url_filter.py:226-274 | no single check reaches HIGH: a HIGH URL has at least two issues |
| UrlAnalysis.QuietUrlIsSafe | app/core/url_filter.py:266-281 | a URL on which no check fires is SAFE with score 0 and no issue |
| UrlAnalysis.OfLevel | app/core/url_filter.py:306-310 | the filter keeps exactly the reports at the level, in order |
| UrlAnalysis.AggregateFacts | app/core/url_filter.py:306-325 | every report is kept; the overall risk lies in [0, 100]; the lists hold exactly the HIGH and MEDIUM reports; `has_suspicious_urls` iff one is HIGH or MEDIUM |
| UrlAnalysis.HighOverallNeedsHighUrl | app/core/url_filter.py:313-323 | integer scores make an overall risk of 50 or more need a HIGH URL |
| UrlAnalysis.CleanReportsGiveZeroRisk | app/core/url_filter.py:313-323 | all-zero reports give overall risk 0 although URLs were found |
| UrlAnalysis.FilterNoUrls | app/core/url_filter.py:295-303 | no URL gives the all-zero record |
| UrlAnalysis.FilterUrlsFacts | app/core/url_filter.py:284-325 | one report per URL, each as `analyze_single_url` gives it; overall in [0, 100]; 50 or more implies a HIGH URL |
| UrlAnalysis.BucketLines | app/core/url_filter.py:344-352 | a non-empty bucket gives a header and one line per URL; an empty one gives nothing |
| UrlAnalysis.GetUrlRiskSummary | app/core/url_filter.py:328-357 | the appending method builds the summary lines |
| UrlAnalysis.SummaryShape | app/core/url_filter.py:337-355 | the count line first, the two buckets, and the overall line last iff overall risk ≥ 30 |
| UrlAnalysis.CountHoldingPositive | app/core/url_filter.py:378-396 | a count is positive iff some URL passes the test |
| UrlAnalysis.ScanOutcomesFacts | app/core/url_filter.py:400-412 | the anchor scan fails iff some href raises; otherwise it counts at most one mismatch per anchor, positive iff some anchor mismatches |
| UrlAnalysis.TallyAnchors | app/core/url_filter.py:400-412 | the anchor loop counts the mismatches, and a raising href makes the whole count 0 |
| UrlAnalysis.CountAnchorMismatches | app/core/url_filter.py:400-412 | the anchor part is the scan over each anchor's outcome |
| UrlAnalysis.FullwidthHrefFailsScan | app/core/url_filter.py:400-412 | an href `http://a\U{FF1A}b.com` makes `urlparse` raise, so the anchor feature is 0 whatever the other anchors are |
| UrlAnalysis.TallyFacts | app/core/url_filter.py:371-398 | the URL loop gives the two 0/1 flags, the TLD, homograph and path counts, and the host dot total |
| UrlAnalysis.UrlFeaturesFromText | app/core/url_filter.py:360-423 | the method computes the 8-element feature vector |
| UrlAnalysis.FeatureFacts | app/core/url_filter.py:414-423 | 8 values; the shortener and IP flags are 1 iff some URL passes, else 0; the counts are at most the URL count (the 7th value); the 8th is the anchor count |
| UrlAnalysis.NoUrlsNoFeatures | app/core/url_filter.py:368-369 | without URLs all eight features are 0 |
| Emotional.ExamplesOf | app/utils/emotional_analyzer.py:167-176 | at most three examples per pattern, all of them when there are at most three |
| Emotional.CategoriesUpTo | app/utils/emotional_analyzer.py:148-197 | after k categories there are exactly k entries |
| Emotional.CategoryEmotionAt | app/utils/emotional_analyzer.py:148-197 | entry j belongs to the j-th key of `EMOTIONAL_PATTERNS`, in dictionary order |
| Emotional.TallyPatterns | app/utils/emotional_analyzer.py:155-179 | the pattern loop accumulates the weighted score, count and examples |
| Emotional.SearchPattern | app/utils/emotional_analyzer.py:156-176 | one pattern's matches are weighted and added, with its first examples |
| Emotional.AppendExamples | app/utils/emotional_analyzer.py:167-176 | the inner loop appends one example per kept match |
| Emotional.ScoreCategory | app/utils/emotional_analyzer.py:150-192 | a category's entry and its unrounded weighted score |
| Emotional.ScoreAllCategories | app/utils/emotional_analyzer.py:143-197 | the category loop fills the scores and the two running totals |
| Emotional.ScoreNextCategory | app/utils/emotional_analyzer.py:148-197 | one pass of the category loop appends category i's entry and adds its matches and weighted score to the totals |
| Emotional.TallyBounds | app/utils/emotional_analyzer.py:155-179 | each match adds 3.6 to 11.7 (intensity 4-9 times weight 0.9-1.3), and each pattern stores at most three examples |
| Emotional.CategoryFacts | app/utils/emotional_analyzer.py:183-192 | a category's score lies in [0, 10], it keeps at most five examples, and its count is 0 iff its raw score is 0 |
| Emotional.AllCategoriesFound | app/utils/emotional_analyzer.py:148-197 | every later lookup by emotion name succeeds |
| Emotional.SentimentOf | app/utils/emotional_analyzer.py:243-275 | `calculate_sentiment`: the positive and negative word counts of the lowercased words, the polarity and the label; SentimentFacts states them |
| Emotional.SentimentFacts | app/utils/emotional_analyzer.py:243-275 | polarity in [-1, 1]; mixed iff both counts are positive; positive iff polarity > 0.3 and negative iff < -0.3, stated on the counts |
| Emotional.CountsFacts | app/utils/emotional_analyzer.py:249-266 | the same facts for any pair of counts |
| Emotional.HiddenMeaning | app/utils/emotional_analyzer.py:278-320 | `calculate_hidden_meaning_score`: 10 times the 3:4 blend of the average and critical parts, plus the sentiment penalty and the combination bonus, capped at 100 and rounded to two places; nothing where the source raises; HiddenMeaningRange bounds it |
| Emotional.HiddenMeaningRange | app/utils/emotional_analyzer.py:278-320 | with category scores in [0, 10], the hidden-meaning score lies in [0, 100] |
| Emotional.ClassicComboScoresHigh | app/utils/emotional_analyzer.py:307-318 | urgency, fear and anxiety all above 5 give a hidden-meaning score of at least 60 |
| Emotional.DetectEmotionalConflict | app/utils/emotional_analyzer.py:323-342 | the appending method computes the conflicts, or fails on a missing category |
| Emotional.ConflictFacts | app/utils/emotional_analyzer.py:323-352 | a conflict is listed iff its condition holds; at most four, distinct; the positive_* ones need a positive label; score = min(15n, 50); has_conflict iff n > 0 |
| Emotional.HighEmotions | app/utils/emotional_analyzer.py:358 | no more high-intensity categories than categories |
| Emotional.TierFacts | app/utils/emotional_analyzer.py:367-378 | critical if ≥ 3 high or manipulation > 7; else high if ≥ 2 or > 5; else medium if ≥ 1 or > 3; else low; every computed score is at least 20 |
| Emotional.TierMonotone | app/utils/emotional_analyzer.py:367-378 | more high emotions or more manipulation never lower the tier score |
| Emotional.GenerateRiskFactors | app/utils/emotional_analyzer.py:388-413 | the appending method builds the risk-factor lines |
| Emotional.CategoryFactorsShape | app/utils/emotional_analyzer.py:392-400 | one line at most per category: High above 6, Moderate in (4, 6] |
| Emotional.RiskFactorFacts | app/utils/emotional_analyzer.py:388-413 | at most one line per category plus two; the mixed line iff mixed; the framing line iff positive with more than two negatives |
| Emotional.EmptyInputGivesEmptyAnalysis | app/utils/emotional_analyzer.py:102-131 | missing or empty text gives the fixed empty analysis: all zero scores, hidden 0, LOW/0 manipulation, which no computed tier gives |
| Emotional.LongTextTruncated | app/utils/emotional_analyzer.py:134-135 | a longer text is analysed as its first 100000 characters |
| Emotional.TotalsBounds | app/utils/emotional_analyzer.py:160-164 | the total intensity lies between 3.6 and 11.7 times the total matches |
| Emotional.AnalysisOf | app/utils/emotional_analyzer.py:119-240 | `analyze_emotional_tone`: the empty analysis for missing or empty text; otherwise the category scores, sentiment, hidden meaning, conflicts, manipulation tier and risk factors of the truncated lowercased text, each later step with its fallback; AnalysisFacts states it |
| Emotional.AnalysisFacts | app/utils/emotional_analyzer.py:119-240 | for non-empty text: scores in [0, 10]; hidden meaning computed and in [0, 100]; no conflict fallback; composite 0 iff no match, else in [3.6, 11.7] |
| Emotional.AnalysisAssembled | app/utils/emotional_analyzer.py:134-240 | the analysis of a non-empty text is built from its truncated, lowercased form |
| Emotional.AssembleFacts | app/utils/emotional_analyzer.py:199-240 | complete in-range scores and bounded totals give an in-range analysis |
| Emotional.AnalyzeEmotionalTone | app/utils/emotional_analyzer.py:119-240 | the method validates, truncates, lowercases, scores, and applies each later step with its fallback |
| Emotional.EmotionalSummary | app/utils/emotional_analyzer.py:427-439 | `get_emotional_summary`: the CRITICAL, HIGH, MODERATE or LOW line for a hidden-meaning score above 70, above 50, above 30 or otherwise, followed by the score and the manipulation level; SummaryTierMonotone orders the tiers |
| Emotional.SummaryTierMonotone | app/utils/emotional_analyzer.py:427-439 | the summary tier only rises with the hidden-meaning score |
| Explainer.Escape | app/core/explainer.py:22 | `html.escape` leaves no '<', '>' or '"' |
| Explainer.EscapePlain | app/core/explainer.py:22 | text without special characters is left unchanged |
| Explainer.DeleteWrap | app/core/explainer.py:36-40 | deleting the span tags around tag-free text gives the text back |
| Explainer.FirstAlt | app/core/explainer.py:33-34 | the alternative taken matches a non-empty piece within the text |
| Explainer.FirstAltLongest | app/core/explainer.py:28-34 | with keywords sorted longest first, the alternative taken is a longest one that matches |
| Explainer.FirstAltNone | app/core/explainer.py:33-34 | no alternative is taken iff none matches |
| Explainer.FirstAltIndex | app/core/explainer.py:33-34 | the alternative taken is the first that matches |
| Explainer.SubFromDeleteTags | app/core/explainer.py:36-40 | deleting the inserted tags from the substitution gives the text back |
| Explainer.SubFromNoMatch | app/core/explainer.py:33-40 | where nothing matches, the substitution copies the text |
| Explainer.Highlight | app/core/explainer.py:13-40 | `highlight_keywords`: the escaped text with each case-insensitive occurrence of the distinct keywords, longest first, wrapped in a tag; HighlightDeleteTags and HighlightNoKeywords state it |
| Explainer.HighlightDeleteTags | app/core/explainer.py:13-40 | deleting the inserted tags gives exactly the escaped text, which holds no '<' |
| Explainer.HighlightNoKeywords | app/core/explainer.py:19-30 | no keywords, or only empty ones, give exactly the escaped text |
| Explainer.CoreSkipsPartWords | app/core/explainer.py:33-34 | whole-word matching: "fee" inside "coffee" is not highlighted |
| Explainer.DetectorHighlight | app/detector.py:494-502 | the detector's `highlight_keywords`: the escaped text with each distinct keyword, longest first, replaced as given and capitalised by a span; DetectorHighlightAbsent and DetectorMarksPartWords state it |
| Explainer.DetectorHighlightKeywords | app/detector.py:494-502 | the replace loop computes the detector variant's highlighting |
| Explainer.ReplaceUpToFixed | app/detector.py:499-501 | keywords that each leave the text unchanged leave it unchanged together |
| Explainer.DetectorHighlightAbsent | app/detector.py:494-502 | if no keyword occurs as given or capitalised, the escaped text comes back unchanged |
| Explainer.DetectorMarksPartWords | app/detector.py:499-501 | plain replacement: "fee" inside "coffee" is wrapped |
| Explainer.RiskFactorsFromPrediction | app/core/explainer.py:43-69 | the appending method builds the core risk factors |
| Explainer.DetectorRiskFactorsFromPrediction | app/detector.py:505-515 | the appending method builds the detector variant's risk factors |
| Explainer.RiskFactorsFacts | app/core/explainer.py:43-69 | at most three lines, in the order keyword, urgency, model; keyword line iff keywords; urgency line iff urgency ≥ 6, printing its whole part; model line iff some model answered |
| Explainer.DetectorRiskFactorsFacts | app/detector.py:505-515 | the same layout; the detector's model line appears iff some model answered |
| Explainer.LookupMissing | app/detector.py:512-513 | a model that is not listed reads as 0 |
| Explainer.DetectorModelLineIgnoresPipeline | app/detector.py:511-514 | with only a pipeline answer, the detector line reports 0 for logistic and nb, while the core line lists the pipeline |
| Explainer.UrgencyLineIff | app/detector.py:509-510 | the urgency line appears iff some urgency phrase occurs in the lowercased text |
| WordAnalysis.IndicatorNamesUpTo | app/detector.py:564-569 | no more names than indicators tried |
| WordAnalysis.MatchIndicators | app/detector.py:564-569 | the loop lists the indicators that match the token, skipping patterns that fail to compile |
| WordAnalysis.IndicatorNamesInOrder | app/detector.py:564-569 | the names are those of matching, compiling indicators, in table order |
| WordAnalysis.IndicatorNamesComplete | app/detector.py:564-569 | every compiling indicator that matches is listed |
| WordAnalysis.ProbeToken | app/detector.py:576-637 | the per-token probe of the pipeline, then of the classifiers |
| WordAnalysis.TokenProbsFacts | app/detector.py:576-637 | a token has a probability iff some model answered, and answers in [0, 1] give one in [0, 1] |
| WordAnalysis.AnalyzeToken | app/detector.py:538-637 | the flags and probe of one token |
| WordAnalysis.WordLevelAnalysis | app/detector.py:519-641 | the token loop builds the records |
| WordAnalysis.WordLevelShape | app/detector.py:528-549 | one record per token, in token order, each with its token and the token lowercased |
| WordAnalysis.NoBundleNoProbs | app/detector.py:576-577 | without a bundle no token gets a probability |
| WordAnalysis.AcademicTokenIff | app/detector.py:560-561 | `is_academic_kw` iff the lowercased token is a table entry |
| WordAnalysis.ContactIsUrgent | app/detector.py:572-573 | the urgency flag is a substring test: "contact" contains "act" |
| WordAnalysis.EmailShape | app/detector.py:556 | a token flagged as an e-mail holds '@' and has at least six characters |
| WordAnalysis.ShortEmail | app/detector.py:556 | "a@b.cd" is flagged as an e-mail |
| Routes.Detect | app/core/routes.py:33-157 | `detect_phishing` from the prediction on: the prediction without headers, the detector's `filter_urls` over the same URLs, their fusion and the concatenated risk factors; DetectFacts states it |
| Routes.Fuse | app/core/routes.py:56-71 | override: PHISHING with max(blend, 0.7); otherwise the blend, PHISHING iff ≥ 0.45; either way PHISHING iff the confidence reaches 0.45; in-range inputs give a confidence in [0, 1] |
| Routes.FuseMonotone | app/core/routes.py:56-71 | a higher ML confidence never lowers the confidence nor turns PHISHING into LEGITIMATE |
| Routes.OverrideNeedsOnlyRisk | app/core/routes.py:64-67 | on a real `filter_urls` result, the override holds iff the overall risk is at least 50 |
| Routes.RiskFactorsLayout | app/core/routes.py:96-106 | the prediction lines, then the URL summary, then the emotional lines, each in its own order; the URL block is never empty |
| Routes.DetectFacts | app/core/routes.py:48-71 | a confidence in [0, 1]; PHISHING iff ≥ 0.45; overall URL risk of 50 or more forces PHISHING with at least 0.7; risk factors never empty |
| Combiner.ComprehensiveDetection | app/utils/advanced_detection.py:21-87 | `comprehensive_phishing_detection`: the clamped 60/40 score with the attachment bonus, rounded, its level and recommendations; ComprehensiveFacts states it |
| Combiner.Clamp | app/utils/advanced_detection.py:52 | the result lies in [0, 100] and equals an input already in range |
| Combiner.LevelOf | app/utils/advanced_detection.py:54-61 | HIGH iff ≥ 70, MEDIUM iff in [40, 70), LOW iff in [10, 40), SAFE iff < 10 |
| Combiner.WeightsFacts | app/utils/advanced_detection.py:42-45 | the weights sum to 1, and the configured AI weight 0.6 gives a URL weight of 0.4 |
| Combiner.AttachmentBonusFacts | app/utils/advanced_detection.py:48-49 | 0 without attachments, 10 for one, 20 from two on, and never decreasing |
| Combiner.OverallFacts | app/utils/advanced_detection.py:38-52 | the overall score lies in [0, 100] and, for in-range inputs without attachments, is 60·confidence + 0.4·overall risk |
| Combiner.OverallMonotone | app/utils/advanced_detection.py:38-52 | raising any input never lowers the overall score |
| Combiner.LevelMonotone | app/utils/advanced_detection.py:54-61 | a higher score never gives a lower level |
| Combiner.RecommendationsFacts | app/utils/advanced_detection.py:63-79 | three distinct recommendations for HIGH, two for the other levels; LOW and SAFE share theirs; none is shared among the upper levels |
| Combiner.ComprehensiveFacts | app/utils/advanced_detection.py:81-87 | the reported score is the overall score rounded to two places; the level comes from the unrounded score; the recommendations follow the level |
| Combiner.HeadersAndUserIgnored | app/utils/advanced_detection.py:21-30 | `headers` and `user_id` never change the assessment |
| Combiner.LevelBeforeRounding | app/utils/advanced_detection.py:52-83 | an overall score of 69.996 reports 70.0 at level MEDIUM |
| Analytics.FirstMatchSpec | app/modules/analytics/database.py:370-385 | the label of the first row with a matching word; Other iff no row matches |
| Analytics.CategorizePattern | app/modules/analytics/database.py:370-385 | `categorize_pattern`: the label of the first word list with a word in the lowercased keyword, Other otherwise; CategorizeFacts states it |
| Analytics.CategorizeIsFirstMatch | app/modules/analytics/database.py:370-385 | the if/elif chain is the first match over the branch table |
| Analytics.CategorizeFacts | app/modules/analytics/database.py:370-385 | Other iff no listed word occurs in the lowercased keyword; otherwise the label of the first list that has one |
| Analytics.ScholarshipNeverReward | app/modules/analytics/database.py:378-380 | a keyword containing "scholarship" is never filed as a reward scam |
| Analytics.ScholarshipIsFinancial | app/modules/analytics/database.py:378 | "scholarship" is filed as Financial Fraud |
| Analytics.NormalizedKeywords | app/modules/analytics/database.py:241-244 | the read-back keywords are non-empty and lowercase |
| Analytics.KeywordsRoundTrip | app/modules/analytics/database.py:116 | joining storable keywords with commas and reading the column back gives them lowercased |
| Analytics.LogPrediction | app/modules/analytics/database.py:111-135 | the row `log_prediction` inserts: the first 500 characters, verdict, confidence, urgency, the three model scores (0 when missing), the comma-joined keywords and the institution; LogPredictionFacts states it |
| Analytics.LogPredictionFacts | app/modules/analytics/database.py:111-135 | at most 500 characters, a prefix of the text; a missing svm score is 0; the keyword column round-trips |
| Analytics.TallyFacts | app/modules/analytics/database.py:230-246 | the dictionaries hold exactly the occurring keywords, with their counts and risk sums; the key order lists each once |
| Analytics.RiskSumWithin | app/modules/analytics/database.py:246 | with risks in [0, 1] a keyword's risk sum lies in [0, frequency] |
| Analytics.InsertByFrequency | app/modules/analytics/database.py:249 | insertion adds exactly the key to the multiset |
| Analytics.SortByFrequency | app/modules/analytics/database.py:249 | the sort is a permutation of the keys |
| Analytics.SortIsByFrequency | app/modules/analytics/database.py:249 | the sorted keys are in non-increasing frequency |
| Analytics.TopOfSortedComplete | app/modules/analytics/database.py:249 | a key left out of the first 15 is no more frequent than the fifteenth |
| Analytics.TopKeywordsOrder | app/modules/analytics/database.py:249-250 | at most 15 different keywords, most frequent first |
| Analytics.TopKeywordsCounts | app/modules/analytics/database.py:226-251 | each reported keyword occurs, with its frequency and its mean risk, and is non-empty and lowercase |
| Analytics.TopKeywordsComplete | app/modules/analytics/database.py:249 | an unreported keyword occurs no more often than the fifteenth reported one |
| Analytics.TopKeywordsRisk | app/modules/analytics/database.py:233-250 | with `model_lr_score` in [0, 1] or missing, every average risk lies in [0, 1] |
| Analytics.RecordKeyword | app/modules/analytics/database.py:245-246 | one keyword is counted, its risk added, and it is noted if new |
| Analytics.RecordRow | app/modules/analytics/database.py:241-246 | the inner loop records each stored keyword of a row |
| Analytics.TopKeywords | app/modules/analytics/database.py:226-251 | the aggregation loop and the top-15 report |
| Analytics.ReportStats | app/modules/analytics/database.py:249-250 | each chosen keyword with its frequency and mean risk |
| Patterns.KeysOf | app/modules/analytics/database.py:341-348 | one row key per keyword, filed under its category |
| Patterns.RunningAverageIsMean | app/modules/analytics/database.py:354 | the new average times the new frequency is the old sum plus the confidence |
| Patterns.RunningAverageWithin | app/modules/analytics/database.py:354 | averaging values in [0, 1] stays in [0, 1] |
| Patterns.RecordPatternFacts | app/modules/analytics/database.py:352-364 | one detection is added to the keyword's own row, and every other row is unchanged |
| Patterns.RecordAllFrequency | app/modules/analytics/database.py:341-364 | each row gains one detection per occurrence of its key |
| Patterns.RecordAllTotal | app/modules/analytics/database.py:341-364 | each row's sum gains the confidence once per occurrence, so the average is the mean |
| Patterns.RecordAllUntouched | app/modules/analytics/database.py:341-364 | a row whose key does not occur is neither added nor changed |
| Patterns.NewRowAverage | app/modules/analytics/database.py:360-364 | a new keyword's row averages the confidence it was seen with |
| Patterns.RecordAllWellFormed | app/modules/analytics/database.py:341-364 | recording keeps the table well formed |
| Patterns.UpdatedPatterns | app/modules/analytics/database.py:333-364 | `update_phishing_patterns`: unchanged unless the verdict is PHISHING with keywords; otherwise one detection recorded per keyword under its category; UpdatedPatternsFacts states it |
| Patterns.UpdatedPatternsFacts | app/modules/analytics/database.py:333-364 | only a PHISHING verdict with keywords changes the table; it adds exactly the keyword rows' detections and keeps the table well formed |
| Patterns.PatternStore.constructor | app/modules/analytics/database.py:333-364 | a new table is empty |
| Patterns.PatternStore.UpdatePhishingPatterns | app/modules/analytics/database.py:333-364 | the loop updates `rows` in place to the updated table |
| Numeric.Round2 | app/core/url_filter.py:323 | `round(x, 2)` is within 0.005 of x |
| Numeric.Round3 | app/utils/emotional_analyzer.py:269 | `round(x, 3)` is within 0.0005 of x |
| Strings.Lower | app/detector.py:95 | lowercasing keeps the length |
| Strings.CountPositiveIffContains | app/detector.py:99-100 | `count` is positive iff the phrase occurs |
| Strings.SplitJoin | app/modules/analytics/database.py:116 | splitting a comma-join of comma-free parts gives the parts back |

## Left out

- Regular expressions in general: `re.search`, `re.findall` and `re.finditer` on the category, indicator, header and anchor patterns are answered by `Oracles.Engine`. Only the URL extraction patterns, the two IP patterns, the `\b...\b` keyword search and the highlight substitution are written out.
- Unicode: NFKC normalisation, `unicodedata.name`, and the `\w` and digit classes are answered by `Oracles.Stdlib`, and so is `ipaddress.ip_address`. `lower` and `strip` are ASCII-only. Of Unicode case folding, only what `re.IGNORECASE` does in the URL patterns is written out.
- `urlparse`: the model follows Python 3.11.4 and 3.12. The later check that a bracketed host starts the netloc (`_check_bracketed_netloc`) is not modelled, and the scheme is kept in the case it was written.
- Floating point: floats are exact reals. `round` is half-even on exact decimals, without binary representation error. Float printing and `:.2f` formatting go through the `showReal` and `show2` parameters.
- `html.unescape` of the displayed domain is part of the `displayDomain` parameter.
- Model loading and scoring: what each loaded classifier answers is the `Predictor.Scores` input, with the SVM sigmoid applied in the model. The URL-feature `hstack` of the dict pipeline is not modelled; the pipeline's answer is an input.
- Set iteration order: a value read from a Python `set` is taken in an enumeration `order` given as input.
- The network lookup of `resolve_shortener` is the `Context.resolve` parameter.
- SQL, timestamps, row ids, `update_daily_statistics` and the rest of `get_analytics` beyond the top-keyword aggregation are not modelled: they are storage, not logic.
- The route's 400 and 500 error responses, logging, the analytics calls, and the `highlighted_text` and `word_analysis` fields of the response are not modelled; the route model covers the fusion of scores and risk factors.
- Combiner.ComprehensiveDetection: `ml_output` is reduced to its confidence, and its own `predict_phishing` call is an input.
- The `filter_urls` wrapper in `app/utils/advanced_detection.py` is the identity on the URL analyzer's result and has no member of its own.
- Emotional.Assemble: only the hidden-meaning and conflict steps have fallback branches. The sentiment, manipulation and risk-factor steps cannot raise on the modelled values, so their `except` paths are not branches.
- UrlChecks.PathCheck: states the path check only for URLs whose rest has no `?`, `#` or `;`.
- Analytics.SortByFrequency: the stability of Python's sort among equally frequent keywords is not stated; the model states the order by frequency and the permutation.
- Numeric.Round2: states only that the result is within 0.005 of the argument, not the exact half-even digit.
- Numeric.Round3: states only that the result is within 0.0005 of the argument, not the exact half-even digit.
- Strings.Lower: states that the length is kept; the letter mapping is the function's definition.
- Training scripts, the test suite, the web templates and the command-line helpers are outside the core.
