/**
 * What `app/core/url_filter.py` (and the copy in `app/detector.py`) builds from the
 * predicates: a per-URL report with an additive score and a level, the aggregate
 * over all extracted URLs, the human-readable summary, and the eight numeric
 * features for the classifier.
 *
 * `extract_urls` returns `list(set(...))`, whose order Python does not fix; the
 * operations take that order as a parameter `order` that must enumerate the set.
 */
module UrlAnalysis {
  import opened Wrappers
  import opened Strings
  import opened Numeric
  import opened Oracles
  import opened UrlParse
  import opened UrlExtract
  import opened UrlChecks

  datatype RiskLevel = Safe | Low | Medium | High

  /** One check of `analyze_single_url`, with the points it adds and the issue text it records. */
  datatype Issue = UsesIp | UsesShortener | SuspiciousTld | Homograph | ExcessiveSubdomains | SuspiciousPath
  {
    function Points(): nat {
      match this
      case UsesIp => 30
      case UsesShortener => 25
      case SuspiciousTld => 20
      case Homograph => 35
      case ExcessiveSubdomains => 15
      case SuspiciousPath => 10
    }

    function Text(): string {
      match this
      case UsesIp => "Uses IP address instead of domain name"
      case UsesShortener => "Uses URL shortening service"
      case SuspiciousTld => "Uses suspicious top-level domain"
      case Homograph => "Contains lookalike characters (homograph attack)"
      case ExcessiveSubdomains => "Has excessive number of subdomains"
      case SuspiciousPath => "Path contains suspicious keywords"
    }
  }

  /** The outcome of the six checks on one URL. */
  datatype Checks = Checks(ip: bool, shortener: bool, tld: bool, homograph: bool, subdomains: bool, path: bool)
  {
    predicate Fires(issue: Issue) {
      match issue
      case UsesIp => ip
      case UsesShortener => shortener
      case SuspiciousTld => tld
      case Homograph => homograph
      case ExcessiveSubdomains => subdomains
      case SuspiciousPath => path
    }
  }

  /** The checks run on `url`; only the homograph check sees the resolved URL. */
  function ChecksOf(ctx: Context, url: string): Checks {
    Checks(IsIpAddressUrl(ctx.lib, ctx.copy, url), IsUrlShortener(ctx.lib, url), HasSuspiciousTld(ctx.lib, url),
      CheckHomographAttack(ctx.lib, UrlToCheck(ctx, url)), HasExcessiveSubdomains(ctx.lib, url), CheckSuspiciousPath(ctx.lib, url))
  }

  /** `[x]` when `b` holds, otherwise nothing. */
  function Only(b: bool, x: Issue): seq<Issue> { if b then [x] else [] }

  /** The issues recorded for checks `c`, in check order. */
  function IssuesOf(c: Checks): seq<Issue> {
    Only(c.ip, UsesIp) + Only(c.shortener, UsesShortener) + Only(c.tld, SuspiciousTld)
    + Only(c.homograph, Homograph) + Only(c.subdomains, ExcessiveSubdomains) + Only(c.path, SuspiciousPath)
  }

  function TotalPoints(issues: seq<Issue>): nat {
    if issues == [] then 0 else issues[0].Points() + TotalPoints(issues[1..])
  }

  /** The level thresholds, applied to the uncapped sum. */
  function LevelOf(raw: nat): RiskLevel {
    if raw >= 50 then High else if raw >= 30 then Medium else if raw >= 10 then Low else Safe
  }

  datatype UrlReport = UrlReport(url: string, riskScore: nat, riskLevel: RiskLevel, issues: seq<Issue>)

  function Bonus(b: bool, points: nat): nat { if b then points else 0 }

  /** The uncapped score: the points of each check that fires. */
  function RawPoints(c: Checks): nat {
    Bonus(c.ip, UsesIp.Points()) + Bonus(c.shortener, UsesShortener.Points()) + Bonus(c.tld, SuspiciousTld.Points())
    + Bonus(c.homograph, Homograph.Points()) + Bonus(c.subdomains, ExcessiveSubdomains.Points())
    + Bonus(c.path, SuspiciousPath.Points())
  }

  /** The report for `url` once its checks are known. */
  function Report(url: string, c: Checks): UrlReport {
    var raw := RawPoints(c);
    UrlReport(url, if raw <= 100 then raw else 100, LevelOf(raw), IssuesOf(c))
  }

  /** `analyze_single_url(url)` as a value. */
  function Analyze(ctx: Context, url: string): UrlReport {
    Report(url, ChecksOf(ctx, url))
  }

  /** `analyze_single_url`: run the six checks, then score them. */
  method AnalyzeSingleUrl(ctx: Context, url: string) returns (r: UrlReport)
    ensures r == Analyze(ctx, url)
  {
    var c := Checks(IsIpAddressUrl(ctx.lib, ctx.copy, url), IsUrlShortener(ctx.lib, url), HasSuspiciousTld(ctx.lib, url),
      CheckHomographAttack(ctx.lib, UrlToCheck(ctx, url)), HasExcessiveSubdomains(ctx.lib, url), CheckSuspiciousPath(ctx.lib, url));
    r := ScoreChecks(url, c);
  }

  /** The scoring half of `analyze_single_url`: in check order, record the issue and add the points of each check that fired. */
  method ScoreChecks(url: string, c: Checks) returns (r: UrlReport)
    ensures r == Report(url, c)
  {
    var issues: seq<Issue> := [];
    var riskScore: nat := 0;
    ghost var before := issues;
    if c.ip {
      issues := issues + [UsesIp];
      riskScore := riskScore + 30;
    }
    Step(before, issues, c.ip, UsesIp);
    before := issues;
    if c.shortener {
      issues := issues + [UsesShortener];
      riskScore := riskScore + 25;
    }
    Step(before, issues, c.shortener, UsesShortener);
    before := issues;
    if c.tld {
      issues := issues + [SuspiciousTld];
      riskScore := riskScore + 20;
    }
    Step(before, issues, c.tld, SuspiciousTld);
    before := issues;
    if c.homograph {
      issues := issues + [Homograph];
      riskScore := riskScore + 35;
    }
    Step(before, issues, c.homograph, Homograph);
    before := issues;
    if c.subdomains {
      issues := issues + [ExcessiveSubdomains];
      riskScore := riskScore + 15;
    }
    Step(before, issues, c.subdomains, ExcessiveSubdomains);
    before := issues;
    if c.path {
      issues := issues + [SuspiciousPath];
      riskScore := riskScore + 10;
    }
    Step(before, issues, c.path, SuspiciousPath);
    assert riskScore == RawPoints(c);
    assert [] + Only(c.ip, UsesIp) == Only(c.ip, UsesIp);
    assert issues == IssuesOf(c);
    var level := if riskScore >= 50 then High else if riskScore >= 30 then Medium
      else if riskScore >= 10 then Low else Safe;
    r := UrlReport(url, if riskScore <= 100 then riskScore else 100, level, issues);
  }

  /** One step of `analyze_single_url`: appending an issue when its check fires. */
  lemma Step(before: seq<Issue>, after: seq<Issue>, b: bool, x: Issue)
    requires after == if b then before + [x] else before
    ensures after == before + Only(b, x)
  {
    if !b {
      assert before + [] == before;
    }
  }

  // ------------------------------------------------------------ per-URL lemmas

  lemma {:induction false} TotalPointsAppend(a: seq<Issue>, b: seq<Issue>)
    ensures TotalPoints(a + b) == TotalPoints(a) + TotalPoints(b)
    decreases |a|
  {
    if a == [] {
      assert a + b == b;
    } else {
      assert (a + b)[1..] == a[1..] + b;
      TotalPointsAppend(a[1..], b);
    }
  }

  /** The position of an issue's check in the order `analyze_single_url` runs them. */
  function Rank(x: Issue): nat {
    match x
    case UsesIp => 0
    case UsesShortener => 1
    case SuspiciousTld => 2
    case Homograph => 3
    case ExcessiveSubdomains => 4
    case SuspiciousPath => 5
  }

  predicate Ascending(s: seq<Issue>) {
    forall i, j :: 0 <= i < j < |s| ==> Rank(s[i]) < Rank(s[j])
  }

  predicate RanksBelow(s: seq<Issue>, bound: nat) {
    forall i :: 0 <= i < |s| ==> Rank(s[i]) < bound
  }

  lemma OnlyPoints(b: bool, x: Issue)
    ensures TotalPoints(Only(b, x)) == Bonus(b, x.Points())
  {
  }

  lemma MemberAppendOnly(s: seq<Issue>, b: bool, x: Issue, y: Issue)
    ensures y in s + Only(b, x) <==> y in s || (b && y == x)
  {
  }

  /** Appending a later check keeps the issues in check order. */
  lemma AscendingLater(s: seq<Issue>, b: bool, x: Issue)
    requires Ascending(s) && RanksBelow(s, Rank(x))
    ensures Ascending(s + Only(b, x))
  {
  }

  lemma BelowLater(s: seq<Issue>, b: bool, x: Issue)
    requires RanksBelow(s, Rank(x))
    ensures RanksBelow(s + Only(b, x), Rank(x) + 1)
  {
  }

  /** An issue is recorded exactly when its check fires. */
  lemma IssuesAreFiredChecks(c: Checks)
    ensures forall x :: x in IssuesOf(c) <==> c.Fires(x)
  {
    var p1 := Only(c.ip, UsesIp);
    var p2 := p1 + Only(c.shortener, UsesShortener);
    var p3 := p2 + Only(c.tld, SuspiciousTld);
    var p4 := p3 + Only(c.homograph, Homograph);
    var p5 := p4 + Only(c.subdomains, ExcessiveSubdomains);
    forall y
      ensures y in IssuesOf(c) <==> c.Fires(y)
    {
      MemberAppendOnly(p5, c.path, SuspiciousPath, y);
      MemberAppendOnly(p4, c.subdomains, ExcessiveSubdomains, y);
      MemberAppendOnly(p3, c.homograph, Homograph, y);
      MemberAppendOnly(p2, c.tld, SuspiciousTld, y);
      MemberAppendOnly(p1, c.shortener, UsesShortener, y);
    }
  }

  /** The issues come in check order, so none is recorded twice. */
  lemma IssuesInCheckOrder(c: Checks)
    ensures Ascending(IssuesOf(c))
  {
    var p1 := Only(c.ip, UsesIp);
    var p2 := p1 + Only(c.shortener, UsesShortener);
    var p3 := p2 + Only(c.tld, SuspiciousTld);
    var p4 := p3 + Only(c.homograph, Homograph);
    var p5 := p4 + Only(c.subdomains, ExcessiveSubdomains);
    assert Ascending(p1) && RanksBelow(p1, 1);
    AscendingLater(p1, c.shortener, UsesShortener);
    BelowLater(p1, c.shortener, UsesShortener);
    AscendingLater(p2, c.tld, SuspiciousTld);
    BelowLater(p2, c.tld, SuspiciousTld);
    AscendingLater(p3, c.homograph, Homograph);
    BelowLater(p3, c.homograph, Homograph);
    AscendingLater(p4, c.subdomains, ExcessiveSubdomains);
    BelowLater(p4, c.subdomains, ExcessiveSubdomains);
    AscendingLater(p5, c.path, SuspiciousPath);
  }

  /** The score adds up the points of exactly the recorded issues, and never passes 135. */
  lemma {:induction false} RawScore(c: Checks)
    ensures TotalPoints(IssuesOf(c)) == RawPoints(c)
    ensures RawPoints(c) <= 135
  {
    var p1 := Only(c.ip, UsesIp);
    var p2 := p1 + Only(c.shortener, UsesShortener);
    var p3 := p2 + Only(c.tld, SuspiciousTld);
    var p4 := p3 + Only(c.homograph, Homograph);
    var p5 := p4 + Only(c.subdomains, ExcessiveSubdomains);
    OnlyPoints(c.ip, UsesIp);
    PointsAppendOnly(p1, c.shortener, UsesShortener);
    PointsAppendOnly(p2, c.tld, SuspiciousTld);
    PointsAppendOnly(p3, c.homograph, Homograph);
    PointsAppendOnly(p4, c.subdomains, ExcessiveSubdomains);
    PointsAppendOnly(p5, c.path, SuspiciousPath);
  }

  lemma PointsAppendOnly(s: seq<Issue>, b: bool, x: Issue)
    ensures TotalPoints(s + Only(b, x)) == TotalPoints(s) + Bonus(b, x.Points())
  {
    TotalPointsAppend(s, Only(b, x));
    OnlyPoints(b, x);
  }

  /** The score is the sum capped at 100; the level follows the thresholds on the uncapped sum. */
  lemma ScoreAndLevel(url: string, c: Checks)
    ensures var r := Report(url, c);
      r.riskScore <= 100
      && (r.riskScore < TotalPoints(r.issues) ==> r.riskScore == 100)
      && (r.riskLevel == High <==> TotalPoints(r.issues) >= 50)
      && (r.riskLevel == Medium <==> 30 <= TotalPoints(r.issues) < 50)
      && (r.riskLevel == Safe <==> TotalPoints(r.issues) < 10)
  {
    RawScore(c);
  }

  /** No single check reaches the HIGH threshold alone: a HIGH URL has at least two issues. */
  lemma HighNeedsTwoIssues(url: string, c: Checks)
    requires Report(url, c).riskLevel == High
    ensures |Report(url, c).issues| >= 2
  {
    var p1 := Only(c.ip, UsesIp);
    var p2 := p1 + Only(c.shortener, UsesShortener);
    var p3 := p2 + Only(c.tld, SuspiciousTld);
    var p4 := p3 + Only(c.homograph, Homograph);
    var p5 := p4 + Only(c.subdomains, ExcessiveSubdomains);
    assert |IssuesOf(c)| == Bonus(c.ip, 1) + Bonus(c.shortener, 1) + Bonus(c.tld, 1) + Bonus(c.homograph, 1)
      + Bonus(c.subdomains, 1) + Bonus(c.path, 1);
  }

  /** A URL on which no check fires is SAFE with score 0 and no issue. */
  lemma QuietUrlIsSafe(url: string, c: Checks)
    requires c == Checks(false, false, false, false, false, false)
    ensures Report(url, c) == UrlReport(url, 0, Safe, [])
  {
  }

  // --------------------------------------------------------------- filter_urls

  datatype UrlFilterResult = UrlFilterResult(
    urlsFound: nat,
    urls: seq<UrlReport>,
    highRisk: seq<UrlReport>,
    mediumRisk: seq<UrlReport>,
    overallRisk: real,
    hasSuspiciousUrls: bool)

  /** The reports at `level`, in their order. */
  function OfLevel(reports: seq<UrlReport>, level: RiskLevel): (r: seq<UrlReport>)
    ensures |r| <= |reports|
    ensures forall x :: x in r <==> x in reports && x.riskLevel == level
  {
    if reports == [] then []
    else (if reports[0].riskLevel == level then [reports[0]] else []) + OfLevel(reports[1..], level)
  }

  function SumScores(reports: seq<UrlReport>): nat {
    if reports == [] then 0 else reports[0].riskScore + SumScores(reports[1..])
  }

  const NoUrlsResult := UrlFilterResult(0, [], [], [], 0.0, false)

  /** The aggregate over a non-empty list of reports: the two buckets and the rounded mean score. */
  function Aggregate(reports: seq<UrlReport>): UrlFilterResult
    requires reports != []
  {
    var high := OfLevel(reports, High);
    var medium := OfLevel(reports, Medium);
    UrlFilterResult(|reports|, reports, high, medium,
      Round2(SumScores(reports) as real / |reports| as real), |high| > 0 || |medium| > 0)
  }

  /** `filter_urls(email_text)`, the URLs taken in the iteration order `order` of the extracted set. */
  function FilterUrls(ctx: Context, text: string, order: seq<string>): UrlFilterResult
    requires Enumerates(order, ExtractUrls(ctx.copy, text))
  {
    if order == [] then NoUrlsResult
    else Aggregate(seq(|order|, i requires 0 <= i < |order| => Analyze(ctx, order[i])))
  }

  /** What every report satisfies: a score of at most 100, and under 50 unless HIGH. */
  predicate WellFormed(r: UrlReport) {
    r.riskScore <= 100 && (r.riskLevel != High ==> r.riskScore < 50)
  }

  lemma ReportWellFormed(url: string, c: Checks)
    ensures WellFormed(Report(url, c))
  {
  }

  lemma {:induction false} SumScoresBound(reports: seq<UrlReport>, bound: nat)
    requires forall k :: 0 <= k < |reports| ==> reports[k].riskScore <= bound
    ensures SumScores(reports) <= bound * |reports|
    decreases |reports|
  {
    if reports != [] {
      SumScoresBound(reports[1..], bound);
    }
  }

  /**
   * The aggregate keeps every report; `overall_risk` is in [0, 100]; the two lists hold exactly the
   * HIGH and MEDIUM reports; `has_suspicious_urls` says some report is HIGH or MEDIUM.
   */
  lemma AggregateFacts(reports: seq<UrlReport>)
    requires reports != [] && forall k :: 0 <= k < |reports| ==> WellFormed(reports[k])
    ensures var r := Aggregate(reports);
      r.urlsFound == |reports| && r.urls == reports
      && 0.0 <= r.overallRisk <= 100.0
      && (forall x :: x in r.highRisk <==> x in reports && x.riskLevel == High)
      && (forall x :: x in r.mediumRisk <==> x in reports && x.riskLevel == Medium)
      && (r.hasSuspiciousUrls <==> exists k :: 0 <= k < |reports| && reports[k].riskLevel in {High, Medium})
  {
    var r := Aggregate(reports);
    SumScoresBound(reports, 100);
    MeanWithin(SumScores(reports), |reports|, 0, 100);
    Round2Within(SumScores(reports) as real / |reports| as real, 0, 10000);
    if r.hasSuspiciousUrls {
      var x := if |r.highRisk| > 0 then r.highRisk[0] else r.mediumRisk[0];
      assert x in reports;
    }
  }

  /** Scores are whole numbers, so a mean of 50 or more needs at least one HIGH report. */
  lemma HighOverallNeedsHighUrl(reports: seq<UrlReport>)
    requires reports != [] && forall k :: 0 <= k < |reports| ==> WellFormed(reports[k])
    requires Aggregate(reports).overallRisk >= 50.0
    ensures |Aggregate(reports).highRisk| > 0
  {
    if |Aggregate(reports).highRisk| == 0 {
      forall k | 0 <= k < |reports|
        ensures reports[k].riskScore <= 49
      {
        assert reports[k] in reports;
      }
      SumScoresBound(reports, 49);
      MeanWithin(SumScores(reports), |reports|, 0, 49);
    }
  }

  /** Reports that all score 0 give an overall risk of 0, though URLs were found. */
  lemma CleanReportsGiveZeroRisk(reports: seq<UrlReport>)
    requires reports != [] && forall k :: 0 <= k < |reports| ==> reports[k].riskScore == 0
    ensures Aggregate(reports).overallRisk == 0.0 && Aggregate(reports).urlsFound > 0
  {
    SumScoresBound(reports, 0);
    MeanWithin(SumScores(reports), |reports|, 0, 0);
    Round2Within(SumScores(reports) as real / |reports| as real, 0, 0);
  }

  /** With no URL in the text the result is the all-zero record. */
  lemma FilterNoUrls(ctx: Context, text: string, order: seq<string>)
    requires Enumerates(order, ExtractUrls(ctx.copy, text))
    requires ExtractUrls(ctx.copy, text) == {}
    ensures FilterUrls(ctx, text, order) == NoUrlsResult
  {
    assert forall k :: 0 <= k < |order| ==> order[k] in ExtractUrls(ctx.copy, text);
  }

  /** With URLs, `filter_urls` reports each URL as `analyze_single_url` does, and the aggregate facts hold. */
  lemma FilterUrlsFacts(ctx: Context, text: string, order: seq<string>)
    requires Enumerates(order, ExtractUrls(ctx.copy, text)) && order != []
    ensures var r := FilterUrls(ctx, text, order);
      r.urlsFound == |order| == |r.urls|
      && (forall k :: 0 <= k < |order| ==> r.urls[k] == Analyze(ctx, order[k]))
      && 0.0 <= r.overallRisk <= 100.0
      && (r.overallRisk >= 50.0 ==> |r.highRisk| > 0)
  {
    var reports := seq(|order|, i requires 0 <= i < |order| => Analyze(ctx, order[i]));
    forall k | 0 <= k < |reports|
      ensures WellFormed(reports[k])
    {
      ReportWellFormed(order[k], ChecksOf(ctx, order[k]));
    }
    AggregateFacts(reports);
    if Aggregate(reports).overallRisk >= 50.0 {
      HighOverallNeedsHighUrl(reports);
    }
  }

  // ------------------------------------------------------- get_url_risk_summary

  /** One line of `get_url_risk_summary`. */
  datatype SummaryLine =
    | NoUrlsLine
    | FoundLine(count: nat)
    | BucketLine(level: RiskLevel, count: nat)
    | DetailLine(url: string, issues: seq<Issue>)
    | OverallLine(risk: real)
  {
    /** The printed line; `showReal` prints a float as Python's `str` does. */
    function Render(showReal: real -> string): string {
      match this
      case NoUrlsLine => "No URLs detected in email"
      case FoundLine(n) => "Found " + NatToString(n) + " URL(s) in email"
      case BucketLine(level, n) =>
        "⚠️ " + NatToString(n) + (if level == High then " HIGH" else " MEDIUM") + " RISK URL(s) detected"
      case DetailLine(url, issues) =>
        "  - " + url + ": " + Join(seq(|issues|, i requires 0 <= i < |issues| => issues[i].Text()), ", ")
      case OverallLine(r) => "Overall URL risk score: " + showReal(r) + "/100"
    }
  }

  function DetailLines(reports: seq<UrlReport>): (r: seq<SummaryLine>)
    ensures |r| == |reports|
  {
    seq(|reports|, i requires 0 <= i < |reports| => DetailLine(reports[i].url, reports[i].issues))
  }

  /** A bucket's header and one line per URL, or nothing for an empty bucket. */
  function BucketLines(level: RiskLevel, reports: seq<UrlReport>): (r: seq<SummaryLine>)
    ensures |r| == if reports == [] then 0 else 1 + |reports|
  {
    if reports == [] then [] else [BucketLine(level, |reports|)] + DetailLines(reports)
  }

  /** The lines `get_url_risk_summary` emits, as a value. */
  function UrlRiskSummary(a: UrlFilterResult): seq<SummaryLine> {
    if a.urlsFound == 0 then [NoUrlsLine]
    else
      [FoundLine(a.urlsFound)] + BucketLines(High, a.highRisk) + BucketLines(Medium, a.mediumRisk)
      + (if a.overallRisk >= 30.0 then [OverallLine(a.overallRisk)] else [])
  }

  /** `get_url_risk_summary`: append the count, each non-empty bucket with its URLs, then the overall score when it is 30 or more. */
  method GetUrlRiskSummary(a: UrlFilterResult) returns (lines: seq<SummaryLine>)
    ensures lines == UrlRiskSummary(a)
  {
    if a.urlsFound == 0 {
      return [NoUrlsLine];
    }
    lines := [FoundLine(a.urlsFound)];
    if |a.highRisk| > 0 {
      lines := lines + [BucketLine(High, |a.highRisk|)];
      for k := 0 to |a.highRisk|
        invariant lines == [FoundLine(a.urlsFound), BucketLine(High, |a.highRisk|)] + DetailLines(a.highRisk[..k])
      {
        assert DetailLines(a.highRisk[..k + 1]) == DetailLines(a.highRisk[..k])
          + [DetailLine(a.highRisk[k].url, a.highRisk[k].issues)];
        lines := lines + [DetailLine(a.highRisk[k].url, a.highRisk[k].issues)];
      }
      assert a.highRisk[..|a.highRisk|] == a.highRisk;
    }
    ghost var afterHigh := lines;
    assert afterHigh == [FoundLine(a.urlsFound)] + BucketLines(High, a.highRisk);
    if |a.mediumRisk| > 0 {
      lines := lines + [BucketLine(Medium, |a.mediumRisk|)];
      for k := 0 to |a.mediumRisk|
        invariant lines == afterHigh + [BucketLine(Medium, |a.mediumRisk|)] + DetailLines(a.mediumRisk[..k])
      {
        assert DetailLines(a.mediumRisk[..k + 1]) == DetailLines(a.mediumRisk[..k])
          + [DetailLine(a.mediumRisk[k].url, a.mediumRisk[k].issues)];
        lines := lines + [DetailLine(a.mediumRisk[k].url, a.mediumRisk[k].issues)];
      }
      assert a.mediumRisk[..|a.mediumRisk|] == a.mediumRisk;
    }
    assert lines == afterHigh + BucketLines(Medium, a.mediumRisk);
    if a.overallRisk >= 30.0 {
      lines := lines + [OverallLine(a.overallRisk)];
    }
  }

  /**
   * With URLs, the summary starts with the count line, has one header and one line per URL for each
   * non-empty bucket, and ends with the overall line exactly when `overall_risk` is 30 or more.
   */
  lemma SummaryShape(a: UrlFilterResult)
    requires a.urlsFound > 0
    ensures var s := UrlRiskSummary(a);
      s[0] == FoundLine(a.urlsFound)
      && |s| == 1 + (if a.highRisk == [] then 0 else 1 + |a.highRisk|)
                  + (if a.mediumRisk == [] then 0 else 1 + |a.mediumRisk|)
                  + (if a.overallRisk >= 30.0 then 1 else 0)
      && (s[|s| - 1].OverallLine? <==> a.overallRisk >= 30.0)
  {
    var s := UrlRiskSummary(a);
    var body := [FoundLine(a.urlsFound)] + BucketLines(High, a.highRisk) + BucketLines(Medium, a.mediumRisk);
    assert forall k :: 0 <= k < |body| ==> !body[k].OverallLine?;
  }

  // ------------------------------------------------------ url_features_from_text

  /** What the feature loop learns about one URL; the TLD and homograph tests see the resolved URL. */
  datatype UrlFacts = UrlFacts(shortener: bool, ip: bool, tld: bool, homograph: bool, path: bool, dots: nat)

  /** The dots in the host of `url`, 0 when the parse raises. */
  function HostDots(lib: Stdlib, url: string): nat {
    match Parse(lib, url)
    case Invalid => 0
    case Ok(p) => Count(Host(p), ".")
  }

  function FactsOf(ctx: Context, url: string): UrlFacts {
    var finalUrl := Resolved(ctx, url);
    UrlFacts(IsUrlShortener(ctx.lib, url), IsIpAddressUrl(ctx.lib, ctx.copy, url), HasSuspiciousTld(ctx.lib, finalUrl),
      CheckHomographAttack(ctx.lib, finalUrl), CheckSuspiciousPath(ctx.lib, url), HostDots(ctx.lib, url))
  }

  /** The facts of each URL, in order. */
  function FactsOfAll(ctx: Context, urls: seq<string>): (r: seq<UrlFacts>)
    ensures |r| == |urls|
  {
    if urls == [] then [] else FactsOfAll(ctx, urls[..|urls| - 1]) + [FactsOf(ctx, urls[|urls| - 1])]
  }

  lemma {:induction false} FactsOfAllAt(ctx: Context, urls: seq<string>, k: nat)
    requires k < |urls|
    ensures FactsOfAll(ctx, urls)[k] == FactsOf(ctx, urls[k])
    decreases |urls|
  {
    if k < |urls| - 1 {
      FactsOfAllAt(ctx, urls[..|urls| - 1], k);
    }
  }

  /** The per-URL tests the feature vector counts. */
  datatype UrlTest = ShortenerTest | IpTest | TldTest | HomographTest | PathTest

  predicate Holds(f: UrlFacts, test: UrlTest) {
    match test
    case ShortenerTest => f.shortener
    case IpTest => f.ip
    case TldTest => f.tld
    case HomographTest => f.homograph
    case PathTest => f.path
  }

  /** How many of `facts` pass `test`. */
  function CountHolding(facts: seq<UrlFacts>, test: UrlTest): (n: nat)
    ensures n <= |facts|
  {
    if facts == [] then 0
    else CountHolding(facts[..|facts| - 1], test) + (if Holds(facts[|facts| - 1], test) then 1 else 0)
  }

  /** Some URL passes `test` exactly when the count is positive. */
  lemma {:induction false} CountHoldingPositive(facts: seq<UrlFacts>, test: UrlTest)
    ensures CountHolding(facts, test) > 0 <==> exists k :: 0 <= k < |facts| && Holds(facts[k], test)
    decreases |facts|
  {
    if facts != [] {
      var init := facts[..|facts| - 1];
      CountHoldingPositive(init, test);
      assert forall k :: 0 <= k < |init| ==> init[k] == facts[k];
    }
  }

  function SumDots(facts: seq<UrlFacts>): nat {
    if facts == [] then 0 else SumDots(facts[..|facts| - 1]) + facts[|facts| - 1].dots
  }

  lemma CountHoldingStep(facts: seq<UrlFacts>, i: nat)
    requires i < |facts|
    ensures forall test ::
      CountHolding(facts[..i + 1], test) == CountHolding(facts[..i], test) + if Holds(facts[i], test) then 1 else 0
  {
    assert facts[..i + 1][..i] == facts[..i];
  }

  lemma SumDotsStep(facts: seq<UrlFacts>, i: nat)
    requires i < |facts|
    ensures SumDots(facts[..i + 1]) == SumDots(facts[..i]) + facts[i].dots
  {
    assert facts[..i + 1][..i] == facts[..i];
  }

  /** An anchor counts when its displayed domain, lowercased, is not inside the lowercased href host. */
  predicate AnchorMismatch(engine: Engine, href: Parts, display: string) {
    match engine.displayDomain(display)
    case None => false
    case Some(d) => href.NetlocText() != "" && Lower(d) != "" && !Contains(Lower(href.NetlocText()), Lower(d))
  }

  /** One anchor: `None` when its href raises, otherwise whether it counts as a mismatch. */
  function AnchorOutcome(lib: Stdlib, engine: Engine, anchor: (string, string)): Option<bool> {
    match Parse(lib, anchor.0)
    case Invalid => None
    case Ok(p) => Some(AnchorMismatch(engine, p, anchor.1))
  }

  /** The outcome of every anchor, in order. */
  function AnchorOutcomes(lib: Stdlib, engine: Engine, anchors: seq<(string, string)>): (r: seq<Option<bool>>)
    ensures |r| == |anchors|
    ensures forall i :: 0 <= i < |anchors| ==> r[i] == AnchorOutcome(lib, engine, anchors[i])
  {
    seq(|anchors|, i requires 0 <= i < |anchors| => AnchorOutcome(lib, engine, anchors[i]))
  }

  /** The anchor loop over the outcomes: `None` once an href has raised, else the number of mismatches. */
  function ScanOutcomes(outcomes: seq<Option<bool>>): Option<nat> {
    if outcomes == [] then Some(0)
    else
      match ScanOutcomes(outcomes[..|outcomes| - 1])
      case None => None
      case Some(n) =>
        match outcomes[|outcomes| - 1]
        case None => None
        case Some(mismatch) => Some(n + if mismatch then 1 else 0)
  }

  /** The anchor loop over `anchors`; `None` once an href raises, which resets the count to 0. */
  function AnchorScan(lib: Stdlib, engine: Engine, anchors: seq<(string, string)>): Option<nat> {
    ScanOutcomes(AnchorOutcomes(lib, engine, anchors))
  }

  function Flag(b: bool): real { if b then 1.0 else 0.0 }

  /** The vector for a non-empty list of URL facts and an anchor count. */
  function FeatureVector(facts: seq<UrlFacts>, anchorMismatch: nat): seq<real>
    requires facts != []
  {
    [ Flag(CountHolding(facts, ShortenerTest) > 0),
      Flag(CountHolding(facts, IpTest) > 0),
      CountHolding(facts, TldTest) as real,
      CountHolding(facts, HomographTest) as real,
      SumDots(facts) as real / |facts| as real,
      CountHolding(facts, PathTest) as real,
      |facts| as real,
      anchorMismatch as real ]
  }

  /** `url_features_from_text(text)` as a value. */
  function UrlFeatures(ctx: Context, engine: Engine, text: string, order: seq<string>): seq<real>
    requires Enumerates(order, ExtractUrls(ctx.copy, text))
  {
    if order == [] then [0.0, 0.0, 0.0, 0.0, 0.0, 0.0, 0.0, 0.0]
    else FeatureVector(FactsOfAll(ctx, order), AnchorScan(ctx.lib, engine, engine.anchors(text)).GetOr(0))
  }

  /** The scan fails exactly when some href raises; otherwise it counts the mismatching anchors, so at most one per anchor. */
  lemma {:induction false} ScanOutcomesFacts(outcomes: seq<Option<bool>>)
    ensures ScanOutcomes(outcomes).None? <==> None in outcomes
    ensures ScanOutcomes(outcomes).Some? ==> ScanOutcomes(outcomes).value <= |outcomes|
    ensures ScanOutcomes(outcomes).Some? ==>
      (ScanOutcomes(outcomes).value > 0 <==> Some(true) in outcomes)
    decreases |outcomes|
  {
    if outcomes != [] {
      var init := outcomes[..|outcomes| - 1];
      ScanOutcomesFacts(init);
      assert outcomes == init + [outcomes[|outcomes| - 1]];
    }
  }

  /**
   * An href whose netloc holds a fullwidth colon (U+FF1A), which NFKC turns into ':', raises, so the
   * anchor scan fails and the mismatch feature is 0 however many other anchors mismatch.
   */
  lemma FullwidthHrefFailsScan(lib: Stdlib, engine: Engine, anchors: seq<(string, string)>, display: string)
    requires lib.nfkc("a\U{FF1A}b.com") == "a:b.com"
    requires ("http://a\U{FF1A}b.com", display) in anchors
    ensures AnchorScan(lib, engine, anchors) == None
  {
    var host := "a\U{FF1A}b.com";
    FullwidthHref(host);
    HttpParse(lib, host, "");
    FullwidthColonRaises(lib, host);
    var i :| 0 <= i < |anchors| && anchors[i] == ("http://a\U{FF1A}b.com", display);
    assert AnchorOutcomes(lib, engine, anchors)[i] == None;
    ScanOutcomesFacts(AnchorOutcomes(lib, engine, anchors));
  }

  lemma FullwidthHref(host: string)
    requires host == "a\U{FF1A}b.com"
    ensures IsHostText(host) && IsPathRest("") && "http://" + host + "" == "http://a\U{FF1A}b.com"
  {
  }

  lemma ScanOutcomesStep(outcomes: seq<Option<bool>>, k: nat)
    requires k < |outcomes|
    ensures ScanOutcomes(outcomes[..k + 1]) ==
      match ScanOutcomes(outcomes[..k])
      case None => None
      case Some(n) =>
        match outcomes[k]
        case None => None
        case Some(mismatch) => Some(n + if mismatch then 1 else 0)
  {
    assert outcomes[..k + 1][..k] == outcomes[..k];
  }

  lemma {:induction false} ScanOutcomesStaysFailed(outcomes: seq<Option<bool>>, k: nat)
    requires k <= |outcomes| && ScanOutcomes(outcomes[..k]) == None
    ensures ScanOutcomes(outcomes) == None
    decreases |outcomes| - k
  {
    if k < |outcomes| {
      ScanOutcomesStep(outcomes, k);
      ScanOutcomesStaysFailed(outcomes, k + 1);
    } else {
      assert outcomes[..k] == outcomes;
    }
  }

  /** The anchor loop proper: count the mismatches, stopping at the first href that raised and then reporting 0. */
  method TallyAnchors(outcomes: seq<Option<bool>>) returns (anchorMismatch: nat)
    ensures anchorMismatch == ScanOutcomes(outcomes).GetOr(0)
  {
    var mismatches: nat := 0;
    var raised := false;
    var k := 0;
    while k < |outcomes| && !raised
      invariant 0 <= k <= |outcomes|
      invariant raised ==> ScanOutcomes(outcomes[..k]) == None
      invariant !raised ==> ScanOutcomes(outcomes[..k]) == Some(mismatches)
      decreases |outcomes| - k, if raised then 0 else 1
    {
      ScanOutcomesStep(outcomes, k);
      match outcomes[k] {
        case None =>
          raised := true;
        case Some(mismatch) =>
          if mismatch {
            mismatches := mismatches + 1;
          }
      }
      k := k + 1;
    }
    if raised {
      ScanOutcomesStaysFailed(outcomes, k);
      anchorMismatch := 0;
    } else {
      assert outcomes[..k] == outcomes;
      anchorMismatch := mismatches;
    }
  }

  /**
   * The anchor part of `url_features_from_text`: the outcome of each anchor (parse its href, look up the
   * displayed domain), then the loop over those outcomes.
   */
  method CountAnchorMismatches(lib: Stdlib, engine: Engine, text: string) returns (anchorMismatch: nat)
    ensures anchorMismatch == AnchorScan(lib, engine, engine.anchors(text)).GetOr(0)
  {
    var outcomes := AnchorOutcomes(lib, engine, engine.anchors(text));
    anchorMismatch := TallyAnchors(outcomes);
  }

  /** The loop of `url_features_from_text`: set the two flags, and count or sum the rest, over the URLs' facts. */
  method TallyFacts(facts: seq<UrlFacts>)
    returns (shortenerFlag: nat, ipFlag: nat, suspiciousTldCount: nat, homographCount: nat,
             subdomainTotal: nat, pathSuspiciousCount: nat)
    ensures shortenerFlag == (if CountHolding(facts, ShortenerTest) > 0 then 1 else 0)
    ensures ipFlag == (if CountHolding(facts, IpTest) > 0 then 1 else 0)
    ensures suspiciousTldCount == CountHolding(facts, TldTest)
    ensures homographCount == CountHolding(facts, HomographTest)
    ensures pathSuspiciousCount == CountHolding(facts, PathTest)
    ensures subdomainTotal == SumDots(facts)
  {
    shortenerFlag, ipFlag, suspiciousTldCount, homographCount, subdomainTotal, pathSuspiciousCount := 0, 0, 0, 0, 0, 0;
    for i := 0 to |facts|
      invariant shortenerFlag == (if CountHolding(facts[..i], ShortenerTest) > 0 then 1 else 0)
      invariant ipFlag == (if CountHolding(facts[..i], IpTest) > 0 then 1 else 0)
      invariant suspiciousTldCount == CountHolding(facts[..i], TldTest)
      invariant homographCount == CountHolding(facts[..i], HomographTest)
      invariant pathSuspiciousCount == CountHolding(facts[..i], PathTest)
      invariant subdomainTotal == SumDots(facts[..i])
    {
      var f := facts[i];
      CountHoldingStep(facts, i);
      SumDotsStep(facts, i);
      if f.shortener {
        shortenerFlag := 1;
      }
      if f.ip {
        ipFlag := 1;
      }
      if f.tld {
        suspiciousTldCount := suspiciousTldCount + 1;
      }
      if f.homograph {
        homographCount := homographCount + 1;
      }
      subdomainTotal := subdomainTotal + f.dots;
      if f.path {
        pathSuspiciousCount := pathSuspiciousCount + 1;
      }
    }
    assert facts[..|facts|] == facts;
  }

  /**
   * `url_features_from_text`: one pass over the URLs keeping flags, counters and host dots, then the
   * anchor loop.  The checks on each URL are evaluated by `FactsOf` and the loop consumes their outcomes.
   */
  method UrlFeaturesFromText(ctx: Context, engine: Engine, text: string, order: seq<string>)
    returns (features: seq<real>)
    requires Enumerates(order, ExtractUrls(ctx.copy, text))
    ensures features == UrlFeatures(ctx, engine, text, order)
  {
    if order == [] {
      return [0.0, 0.0, 0.0, 0.0, 0.0, 0.0, 0.0, 0.0];
    }
    var facts := FactsOfAll(ctx, order);
    var shortenerFlag, ipFlag, suspiciousTldCount, homographCount, subdomainTotal, pathSuspiciousCount :=
      TallyFacts(facts);
    var avgSubdomains := subdomainTotal as real / |order| as real;
    var anchorMismatch := CountAnchorMismatches(ctx.lib, engine, text);
    features := [shortenerFlag as real, ipFlag as real, suspiciousTldCount as real, homographCount as real,
      avgSubdomains, pathSuspiciousCount as real, |order| as real, anchorMismatch as real];
  }

  /**
   * Always eight values, all 0 without URLs; the shortener and IP entries are 0/1 flags saying some URL
   * passes that test; the TLD, homograph and path counts never exceed the URL count, the seventh value.
   */
  lemma FeatureFacts(facts: seq<UrlFacts>, anchorMismatch: nat)
    requires facts != []
    ensures var f := FeatureVector(facts, anchorMismatch);
      |f| == 8
      && (f[0] == 1.0 <==> exists k :: 0 <= k < |facts| && facts[k].shortener)
      && (f[0] == 0.0 <==> !(f[0] == 1.0))
      && (f[1] == 1.0 <==> exists k :: 0 <= k < |facts| && facts[k].ip)
      && (f[1] == 0.0 <==> !(f[1] == 1.0))
      && 0.0 <= f[2] <= f[6] && 0.0 <= f[3] <= f[6] && 0.0 <= f[5] <= f[6]
      && f[6] == |facts| as real && f[4] >= 0.0 && f[7] == anchorMismatch as real
  {
    var s := CountHolding(facts, ShortenerTest);
    var ip := CountHolding(facts, IpTest);
    CountHoldingPositive(facts, ShortenerTest);
    CountHoldingPositive(facts, IpTest);
    if s > 0 {
      var k :| 0 <= k < |facts| && Holds(facts[k], ShortenerTest);
    }
    if ip > 0 {
      var k :| 0 <= k < |facts| && Holds(facts[k], IpTest);
    }
    forall k | 0 <= k < |facts| && facts[k].shortener
      ensures s > 0
    {
      assert Holds(facts[k], ShortenerTest);
    }
    forall k | 0 <= k < |facts| && facts[k].ip
      ensures ip > 0
    {
      assert Holds(facts[k], IpTest);
    }
  }

  /** Without URLs every feature is 0. */
  lemma NoUrlsNoFeatures(ctx: Context, engine: Engine, text: string, order: seq<string>)
    requires Enumerates(order, ExtractUrls(ctx.copy, text)) && ExtractUrls(ctx.copy, text) == {}
    ensures UrlFeatures(ctx, engine, text, order) == [0.0, 0.0, 0.0, 0.0, 0.0, 0.0, 0.0, 0.0]
  {
    assert forall k :: 0 <= k < |order| ==> order[k] in ExtractUrls(ctx.copy, text);
  }
}
