/**
 * The per-URL predicates of `app/core/url_filter.py` (and of the copy inside
 * `app/detector.py`): IP host, shortener, suspicious TLD, homograph, subdomain depth
 * and path keywords.  Each one parses the URL first; a `ValueError` from the parse is
 * caught and makes the predicate false.
 *
 * The copies differ only in the IP pattern (the detector's doubled backslash) and in
 * `resolve_shortener`, which is the identity in the detector copy and a network
 * lookup in the core one; the lookup is the `resolve` parameter of a `Context`.
 */
module UrlChecks {
  import opened Wrappers
  import opened Strings
  import opened Config
  import opened Oracles
  import opened UrlParse
  import opened UrlExtract

  /** What a URL check needs besides the URL: the copy, the redirect lookup and the Unicode database. */
  datatype Context = Context(copy: Copy, resolve: string -> string, lib: Stdlib)

  // ----------------------------------------------------------------- IP host

  predicate IsAsciiDigit(c: char) { '0' <= c <= '9' }

  predicate AllDigits(s: string) {
    forall i :: 0 <= i < |s| ==> IsAsciiDigit(s[i])
  }

  /** One `[0-9]{1,3}` group. */
  predicate IsDigitGroup(g: string) {
    1 <= |g| <= 3 && AllDigits(g)
  }

  /**
   * `^(?:[0-9]{1,3}\.){3}[0-9]{1,3}$` on a host without newlines: four dot-separated
   * groups of one to three digits.  No group is checked to be at most 255.
   */
  predicate IsDottedQuad(host: string) {
    var groups := Split(host, '.');
    |groups| == 4 && forall k :: 0 <= k < 4 ==> IsDigitGroup(groups[k])
  }

  /**
   * `^(?:[0-9]{1,3}\\.){3}[0-9]{1,3}$` from index `i`, with `groups` separator groups
   * still to match: in a raw string `\\.` is a literal backslash followed by any
   * character but a newline, so each group is digits, '\', one more character.
   */
  predicate BackslashQuadFrom(host: string, i: nat, groups: nat)
    requires i <= |host|
    decreases |host| - i
  {
    if groups == 0 then IsDigitGroup(host[i..])
    else exists n :: 1 <= n <= 3 && SeparatedGroupAt(host, i, n) && BackslashQuadFrom(host, i + n + 2, groups - 1)
  }

  /** `n` digits at `i`, then a backslash, then one character that is not a newline. */
  predicate SeparatedGroupAt(host: string, i: nat, n: nat) {
    i + n + 2 <= |host| && AllDigits(host[i..i + n]) && host[i + n] == '\\' && host[i + n + 1] != '\n'
  }

  /** The IP pattern of each copy, on the host. */
  predicate IpPatternMatches(copy: Copy, host: string) {
    match copy
    case CoreFilter => IsDottedQuad(host)
    case DetectorCopy => BackslashQuadFrom(host, 0, 3)
  }

  /** `is_ip_address_url`: the host (netloc, else the path up to its first '/') matches the IP pattern. */
  predicate IsIpAddressUrl(lib: Stdlib, copy: Copy, url: string) {
    match Parse(lib, url)
    case Invalid => false
    case Ok(p) => IpPatternMatches(copy, Host(p))
  }

  // ------------------------------------------------------ netloc-based checks

  /** `is_url_shortener`: some shortener is a substring of the lowercased netloc. */
  predicate IsUrlShortener(lib: Stdlib, url: string) {
    match Parse(lib, url)
    case Invalid => false
    case Ok(p) => ContainsAny(Lower(p.NetlocText()), UrlShorteners)
  }

  /** `has_suspicious_tld`: the lowercased netloc ends with a suspicious TLD (a port after it defeats the check). */
  predicate HasSuspiciousTld(lib: Stdlib, url: string) {
    match Parse(lib, url)
    case Invalid => false
    case Ok(p) => EndsWithAny(Lower(p.NetlocText()), SuspiciousTlds)
  }

  /** The default `threshold` of `has_excessive_subdomains`. */
  const SubdomainThreshold: nat := 3

  /** `has_excessive_subdomains`: the netloc holds more than three dots. */
  predicate HasExcessiveSubdomains(lib: Stdlib, url: string) {
    match Parse(lib, url)
    case Invalid => false
    case Ok(p) => Count(p.NetlocText(), ".") > SubdomainThreshold
  }

  /** The keywords of `check_suspicious_path`. */
  const SuspiciousPathWords: seq<string> :=
    ["login", "signin", "verify", "account", "update", "confirm", "secure", "banking",
     "paypal", "ebay", "amazon", "suspended", "locked", "unusual"]

  /** `check_suspicious_path`: a keyword occurs in the lowercased path followed by the lowercased query. */
  predicate CheckSuspiciousPath(lib: Stdlib, url: string) {
    match Parse(lib, url)
    case Invalid => false
    case Ok(p) => ContainsAny(Lower(p.path) + Lower(p.QueryText()), SuspiciousPathWords)
  }

  // --------------------------------------------------------------- homograph

  /** The labels collected for a normalised host: "ASCII" for ASCII characters, else the first word of the character's name, or "UNKNOWN". */
  function Scripts(lib: Stdlib, norm: string): set<string> {
    (if exists i :: 0 <= i < |norm| && norm[i] as int < 128 then {"ASCII"} else {})
    + set i | 0 <= i < |norm| && norm[i] as int >= 128 :: lib.blockName(norm[i]).GetOr("UNKNOWN")
  }

  /** An ACE label (section 5 of RFC 3490) at the start of the host or after a dot; the test is case-sensitive. */
  predicate HasAcePrefix(host: string) {
    StartsWith(host, "xn--") || Contains(host, ".xn--")
  }

  /** `check_homograph_attack` on a host that is already extracted. */
  predicate HostLooksHomograph(lib: Stdlib, host: string) {
    if host == "" then false
    else if HasAcePrefix(host) then true
    else if IsAscii(lib.nfkc(host)) then false
    else |Scripts(lib, lib.nfkc(host))| > 1
  }

  /** `check_homograph_attack(url)`. */
  predicate CheckHomographAttack(lib: Stdlib, url: string) {
    match Parse(lib, url)
    case Invalid => false
    case Ok(p) => HostLooksHomograph(lib, Host(p))
  }

  // ----------------------------------------------------------------- resolve

  /** `resolve_shortener(url)`: the redirect lookup in the core copy, the identity in the detector copy. */
  function Resolved(ctx: Context, url: string): string {
    match ctx.copy
    case CoreFilter => ctx.resolve(url)
    case DetectorCopy => url
  }

  /** The URL `analyze_single_url` hands to the homograph check: the resolved one when it differs and is not empty. */
  function UrlToCheck(ctx: Context, url: string): (r: string)
    ensures ctx.copy == DetectorCopy ==> r == url
    ensures r == url || r == ctx.resolve(url)
  {
    var resolved := Resolved(ctx, url);
    if resolved != "" && resolved != url then resolved else url
  }

  // ------------------------------------------------------------------ lemmas

  /** A character that may appear in a host the lemmas below build URLs from: printable, no delimiter. */
  predicate IsHostChar(c: char) {
    c as int > 32 && c != '/' && c != '?' && c != '#'
  }

  predicate IsHostText(host: string) {
    host != [] && forall i :: 0 <= i < |host| ==> IsHostChar(host[i])
  }

  /** A host text without brackets, so only the NFKC test can make its parse raise. */
  predicate IsPlainHost(host: string) {
    IsHostText(host) && '[' !in host && ']' !in host
  }

  /** Empty, or a path of printable characters. */
  predicate IsPathRest(rest: string) {
    (rest == [] || rest[0] == '/') && forall i :: 0 <= i < |rest| ==> rest[i] as int > 32
  }

  /** For `http://`, a host and a path, the netloc is exactly that host, and the parse raises exactly when the host does. */
  lemma HttpParse(lib: Stdlib, host: string, rest: string)
    requires IsHostText(host) && IsPathRest(rest)
    ensures var u := "http://" + host + rest;
      Parse(lib, u) == (if NetlocRaises(lib, host) then Invalid else Ok(SplitComponents(u)))
      && SplitComponents(u).NetlocText() == host && Host(SplitComponents(u)) == host
  {
    HttpSanitized(host, rest);
    HttpNetlocOf(host, rest);
  }

  /** For `http://`, a plain host and a path, the host the checks see is exactly that host; only the NFKC test can refuse it. */
  lemma HttpUrlHost(lib: Stdlib, host: string, rest: string)
    requires IsPlainHost(host) && IsPathRest(rest)
    ensures var u := "http://" + host + rest;
      Parse(lib, u) == (if NfkcBreaksNetloc(lib.nfkc, host) then Invalid else Ok(SplitComponents(u)))
      && SplitComponents(u).NetlocText() == host && Host(SplitComponents(u)) == host
  {
    HttpParse(lib, host, rest);
    if !NfkcBreaksNetloc(lib.nfkc, host) {
      PlainNetlocParses(lib, host);
    }
  }

  lemma HttpNetlocOf(host: string, rest: string)
    requires IsHostText(host) && IsPathRest(rest)
    ensures SplitComponents("http://" + host + rest).netloc == Some(host)
  {
    HttpSchemeSplit(host, rest);
    HttpNetloc(host, rest);
  }

  lemma HttpSanitized(host: string, rest: string)
    requires IsHostText(host) && IsPathRest(rest)
    ensures Sanitized("http://" + host + rest) == "http://" + host + rest
  {
    var u := "http://" + host + rest;
    assert LeadingTrimmed(u) == u;
    forall i | 0 <= i < |u|
      ensures u[i] as int > 32
    {
      if i >= 7 + |host| {
        assert u[i] == rest[i - 7 - |host|];
      } else if i >= 7 {
        assert u[i] == host[i - 7];
        assert IsHostChar(host[i - 7]);
      }
    }
    DeletedNothing(u, "\t\r\n");
  }

  lemma HttpScheme(u: string)
    requires StartsWith(u, "http://")
    ensures SplitScheme(u) == (Some("http"), u[5..])
  {
    assert u[..4] == "http" && u[4] == ':';
    FirstOfAt(u, ":", 4);
    assert HasScheme(u);
  }

  lemma HttpNetloc(host: string, rest: string)
    requires IsHostText(host) && IsPathRest(rest)
    ensures SplitNetloc("//" + host + rest) == (Some(host), rest)
  {
    var after := "//" + host + rest;
    assert after[2..] == host + rest;
    forall j | 0 <= j < |host|
      ensures (host + rest)[j] !in "/?#"
    {
      assert (host + rest)[j] == host[j];
      assert IsHostChar(host[j]);
    }
    FirstOfAt(host + rest, "/?#", |host|);
    assert after[2..2 + |host|] == host;
    assert after[2 + |host|..] == rest;
  }

  /** The core IP check: an `http://` URL is flagged exactly when its host is a dotted quad. */
  lemma CoreIpCheck(lib: Stdlib, host: string, rest: string)
    requires IsPlainHost(host) && IsPathRest(rest)
    ensures IsIpAddressUrl(lib, CoreFilter, "http://" + host + rest) <==> IsDottedQuad(host)
  {
    HttpUrlHost(lib, host, rest);
    if IsDottedQuad(host) {
      DottedQuadIsAscii(host);
      AsciiNetlocPassesNfkc(lib.nfkc, host);
    }
  }

  /** A dotted quad holds only digits and dots, so it is ASCII. */
  lemma DottedQuadIsAscii(host: string)
    requires IsDottedQuad(host)
    ensures IsAscii(host)
  {
    forall i | 0 <= i < |host|
      ensures host[i] as int < 128
    {
      if host[i] != '.' {
        var k := SplitHolds(host, '.', host[i]);
        assert IsDigitGroup(Split(host, '.')[k]);
        var j :| 0 <= j < |Split(host, '.')[k]| && Split(host, '.')[k][j] == host[i];
        assert IsAsciiDigit(Split(host, '.')[k][j]);
      }
    }
  }

  /** Every character of `s` other than the separator lies in one of its split parts. */
  lemma {:induction false} SplitHolds(s: string, c: char, ch: char) returns (k: nat)
    requires ch in s && ch != c
    ensures k < |Split(s, c)| && ch in Split(s, c)[k]
    decreases |s|
  {
    var rest := Split(s[1..], c);
    if s[0] == ch {
      k := 0;
    } else {
      assert ch in s[1..];
      var k' := SplitHolds(s[1..], c, ch);
      if s[0] == c {
        k := k' + 1;
      } else if k' == 0 {
        k := 0;
      } else {
        k := k';
        assert Split(s, c)[k] == rest[1..][k' - 1];
      }
    }
  }

  /** The detector's IP pattern cannot match a host without a backslash. */
  lemma {:induction false} BackslashQuadNeedsBackslash(host: string, i: nat, groups: nat)
    requires i <= |host| && groups > 0 && '\\' !in host
    ensures !BackslashQuadFrom(host, i, groups)
  {
    forall n | 1 <= n <= 3
      ensures !SeparatedGroupAt(host, i, n)
    {
      if i + n < |host| {
        assert host[i + n] in host;
      }
    }
  }

  /** The detector IP check never flags an `http://` URL whose host has no backslash, dotted quads included. */
  lemma DetectorIpCheck(lib: Stdlib, host: string, rest: string)
    requires IsPlainHost(host) && IsPathRest(rest) && '\\' !in host
    ensures !IsIpAddressUrl(lib, DetectorCopy, "http://" + host + rest)
  {
    HttpUrlHost(lib, host, rest);
    BackslashQuadNeedsBackslash(host, 0, 3);
  }

  /** Four digit groups joined by dots form a dotted quad, whatever their values. */
  lemma DottedQuadOf(a: string, b: string, c: string, d: string)
    requires IsDigitGroup(a) && IsDigitGroup(b) && IsDigitGroup(c) && IsDigitGroup(d)
    ensures IsDottedQuad(a + "." + b + "." + c + "." + d)
  {
    var groups := [a, b, c, d];
    forall k | 0 <= k < 4
      ensures '.' !in groups[k]
    {
      assert IsDigitGroup(groups[k]);
      forall j | 0 <= j < |groups[k]|
        ensures groups[k][j] != '.'
      {
        assert IsAsciiDigit(groups[k][j]);
      }
    }
    SplitJoin(groups, '.');
    assert groups[1..] == [b, c, d] && [b, c, d][1..] == [c, d] && [c, d][1..] == [d];
    assert Join([c, d], ".") == c + "." + d;
    assert Join([b, c, d], ".") == b + "." + (c + "." + d);
    assert Join(groups, ".") == a + "." + (b + "." + (c + "." + d));
    assert a + "." + (b + "." + (c + "." + d)) == a + "." + b + "." + c + "." + d;
    assert Split(a + "." + b + "." + c + "." + d, '.') == groups;
    assert IsDigitGroup(groups[0]) && IsDigitGroup(groups[1]) && IsDigitGroup(groups[2]) && IsDigitGroup(groups[3]);
  }

  /** `192.168.1.1` is a dotted quad, and so is `999.999.999.999`: no octet range check. */
  lemma DottedQuadExamples()
    ensures IsDottedQuad("192.168.1.1")
    ensures IsDottedQuad("999.999.999.999")
  {
    assert IsDigitGroup("192") && IsDigitGroup("168") && IsDigitGroup("1") && IsDigitGroup("999");
    DottedQuadOf("192", "168", "1", "1");
    assert "192" + "." + "168" + "." + "1" + "." + "1" == "192.168.1.1";
    DottedQuadOf("999", "999", "999", "999");
    assert "999" + "." + "999" + "." + "999" + "." + "999" == "999.999.999.999";
  }

  /** `http://192.168.1.1/login` is an IP URL to the core copy and not to the detector copy. */
  lemma IpUrlExample(lib: Stdlib, host: string, rest: string)
    requires host == "192.168.1.1" && rest == "/login"
    ensures IsIpAddressUrl(lib, CoreFilter, "http://" + host + rest)
    ensures !IsIpAddressUrl(lib, DetectorCopy, "http://" + host + rest)
  {
    ExampleIsPlain(host, rest);
    CoreIpCheck(lib, host, rest);
    DetectorIpCheck(lib, host, rest);
    DottedQuadExamples();
  }

  lemma ExampleIsPlain(host: string, rest: string)
    requires host == "192.168.1.1" && rest == "/login"
    ensures IsPlainHost(host) && IsPathRest(rest) && '\\' !in host
  {
    forall i | 0 <= i < |host| ensures IsHostChar(host[i]) && host[i] != '[' && host[i] != ']' && host[i] != '\\' {
      assert host[i] == '.' || '0' <= host[i] <= '9';
    }
  }

  /**
   * For `http://`, a plain host and a path, the shortener and TLD checks test exactly that host,
   * lowercased, unless the NFKC test refuses the host.
   */
  lemma NetlocChecks(lib: Stdlib, host: string, rest: string)
    requires IsPlainHost(host) && IsPathRest(rest)
    ensures IsUrlShortener(lib, "http://" + host + rest)
      <==> !NfkcBreaksNetloc(lib.nfkc, host) && ContainsAny(Lower(host), UrlShorteners)
    ensures HasSuspiciousTld(lib, "http://" + host + rest)
      <==> !NfkcBreaksNetloc(lib.nfkc, host) && EndsWithAny(Lower(host), SuspiciousTlds)
  {
    HttpUrlHost(lib, host, rest);
  }

  /** For `http://`, a plain host and a path, the subdomain check flags more than three dots in that host, unless the NFKC test refuses it. */
  lemma SubdomainCheck(lib: Stdlib, host: string, rest: string)
    requires IsPlainHost(host) && IsPathRest(rest)
    ensures HasExcessiveSubdomains(lib, "http://" + host + rest)
      <==> !NfkcBreaksNetloc(lib.nfkc, host) && Count(host, ".") > 3
  {
    HttpUrlHost(lib, host, rest);
  }

  /** Without '?', '#' or ';' the whole rest is the path, and the path check looks for its keywords there. */
  lemma PathCheck(lib: Stdlib, host: string, rest: string)
    requires IsPlainHost(host) && IsPathRest(rest) && '?' !in rest && '#' !in rest && ';' !in rest
    ensures CheckSuspiciousPath(lib, "http://" + host + rest)
      <==> !NfkcBreaksNetloc(lib.nfkc, host) && ContainsAny(Lower(rest), SuspiciousPathWords)
  {
    HttpUrlHost(lib, host, rest);
    HttpSplit(host, rest);
    assert Lower(rest) + Lower("") == Lower(rest);
  }

  lemma HttpSplit(host: string, rest: string)
    requires IsHostText(host) && IsPathRest(rest) && '?' !in rest && '#' !in rest && ';' !in rest
    ensures SplitComponents("http://" + host + rest) == Parts(Some("http"), Some(host), rest, None, None, None)
  {
    HttpSchemeSplit(host, rest);
    HttpNetloc(host, rest);
    ComponentsOfSteps("http://" + host + rest, "//" + host + rest, host, rest);
  }

  lemma HttpSchemeSplit(host: string, rest: string)
    ensures SplitScheme("http://" + host + rest) == (Some("http"), "//" + host + rest)
  {
    var u := "http://" + host + rest;
    HttpScheme(u);
    assert u[5..] == "//" + host + rest;
  }

  /** Once the scheme and the netloc are split off, a rest without '#', '?' or ';' is all path. */
  lemma ComponentsOfSteps(u: string, afterScheme: string, host: string, rest: string)
    requires SplitScheme(u) == (Some("http"), afterScheme)
    requires SplitNetloc(afterScheme) == (Some(host), rest)
    requires '?' !in rest && '#' !in rest && ';' !in rest
    ensures SplitComponents(u) == Parts(Some("http"), Some(host), rest, None, None, None)
  {
    SplitAtAbsent(rest, '#');
    SplitAtAbsent(rest, '?');
    assert PathAndParams(Some("http"), rest) == (rest, None);
  }

  lemma SplitAtAbsent(s: string, d: char)
    requires d !in s
    ensures SplitAt(s, d) == (s, None)
  {
    FirstOfAt(s, [d], |s|);
  }

  /** A shortener name inside a longer host still counts: `microsoft.com` holds `t.co`. */
  lemma ShortenerSubstringExample()
    ensures ContainsAny(Lower("microsoft.com"), UrlShorteners)
  {
    assert Lower("microsoft.com") == "microsoft.com";
    assert OccursAt("microsoft.com", "t.co", 8);
    assert UrlShorteners[1] == "t.co";
  }

  /** When the parse raises, every check is false, whatever the URL looks like. */
  lemma RaisingUrlFailsEveryCheck(lib: Stdlib, copy: Copy, url: string)
    requires Parse(lib, url).Invalid?
    ensures !IsIpAddressUrl(lib, copy, url) && !IsUrlShortener(lib, url) && !HasSuspiciousTld(lib, url)
    ensures !HasExcessiveSubdomains(lib, url) && !CheckSuspiciousPath(lib, url) && !CheckHomographAttack(lib, url)
  {
  }

  /**
   * `http://[x].tk/login` fails every check, the TLD and path checks included: its bracketed host
   * `x` is not an IPv6 address, so the parse raises.
   */
  lemma BracketedHostUrlFailsChecks(lib: Stdlib, copy: Copy, host: string, rest: string)
    requires host == "[x].tk" && rest == "/login" && lib.ipAddress("x") == NotAnAddress
    ensures var u := "http://" + host + rest;
      !IsIpAddressUrl(lib, copy, u) && !IsUrlShortener(lib, u) && !HasSuspiciousTld(lib, u)
      && !HasExcessiveSubdomains(lib, u) && !CheckSuspiciousPath(lib, u) && !CheckHomographAttack(lib, u)
  {
    BracketedExampleText(host, rest);
    HttpParse(lib, host, rest);
    BracketedNameRaises(lib, host);
    RaisingUrlFailsEveryCheck(lib, copy, "http://" + host + rest);
  }

  lemma BracketedExampleText(host: string, rest: string)
    requires host == "[x].tk" && rest == "/login"
    ensures IsHostText(host) && IsPathRest(rest)
  {
  }

  /** An ACE prefix flags the host whatever the database says. */
  lemma AcePrefixFlags(lib: Stdlib, host: string)
    requires HasAcePrefix(host)
    ensures HostLooksHomograph(lib, host)
  {
  }

  /** A host without an ACE prefix whose normal form is ASCII is never flagged. */
  lemma AsciiHostNotFlagged(lib: Stdlib, host: string)
    requires !HasAcePrefix(host) && IsAscii(lib.nfkc(host))
    ensures !HostLooksHomograph(lib, host)
  {
  }

  /** A normal form mixing ASCII with any other character is flagged (no character name begins with the word ASCII). */
  lemma MixedAsciiFlagged(lib: Stdlib, host: string)
    requires host != "" && (forall ch :: lib.blockName(ch) != Some("ASCII"))
    requires var norm := lib.nfkc(host);
      (exists i :: 0 <= i < |norm| && norm[i] as int < 128)
      && (exists i :: 0 <= i < |norm| && norm[i] as int >= 128)
    ensures HostLooksHomograph(lib, host)
  {
    var norm := lib.nfkc(host);
    var i :| 0 <= i < |norm| && norm[i] as int >= 128;
    var blockLabel := lib.blockName(norm[i]).GetOr("UNKNOWN");
    assert blockLabel in Scripts(lib, norm) && "ASCII" in Scripts(lib, norm);
    assert blockLabel != "ASCII";
    assert {blockLabel, "ASCII"} <= Scripts(lib, norm);
    assert |{blockLabel, "ASCII"}| == 2;
    SubsetCard({blockLabel, "ASCII"}, Scripts(lib, norm));
  }

  lemma SubsetCard(a: set<string>, b: set<string>)
    requires a <= b
    ensures |a| <= |b|
  {
    assert b == a + (b - a);
  }

  /** A normal form of characters from one named block only is not flagged. */
  lemma SingleBlockNotFlagged(lib: Stdlib, host: string, block: string)
    requires !HasAcePrefix(host)
    requires var norm := lib.nfkc(host);
      forall i :: 0 <= i < |norm| ==> norm[i] as int >= 128 && lib.blockName(norm[i]) == Some(block)
    ensures !HostLooksHomograph(lib, host)
  {
    var norm := lib.nfkc(host);
    assert Scripts(lib, norm) <= {block};
    SubsetCard(Scripts(lib, norm), {block});
  }
}
