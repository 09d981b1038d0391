/**
 * `extract_urls`: the two case-insensitive scans for `http://` / `https://` URLs and
 * for bare `www.` hosts, merged into a set, the bare hosts given an `http://` prefix.
 *
 * The two copies of the URL helpers differ here: the copy inside `app/detector.py`
 * writes its `www` pattern with a doubled backslash inside a raw string, so what
 * it looks for is "www", a literal backslash and any one character.
 */
module UrlExtract {
  import opened Strings

  /** Which copy of the URL helpers: `app/core/url_filter.py` or the one in `app/detector.py`. */
  datatype Copy = CoreFilter | DetectorCopy

  /**
   * The four non-ASCII letters whose case maps onto an ASCII letter, which `re.IGNORECASE`
   * therefore lets a letter class or literal match: U+0130 and U+0131 (onto 'i'),
   * U+017F (onto 's') and U+212A, the Kelvin sign (onto 'k').
   */
  predicate IsFoldedLetter(c: char) {
    c == '\U{0130}' || c == '\U{0131}' || c == '\U{017F}' || c == '\U{212A}'
  }

  /** `c` matches the lowercase character `l` of a pattern under `re.IGNORECASE`. */
  predicate FoldsOnto(c: char, l: char) {
    LowerChar(c) == l
    || (l == 'i' && (c == '\U{0130}' || c == '\U{0131}')) || (l == 's' && c == '\U{017F}')
    || (l == 'k' && c == '\U{212A}')
  }

  /**
   * One repetition of the URL body group under `re.IGNORECASE`: `[a-zA-Z]`, `[0-9]`, the
   * range `$`..`_` (which holds `@ . & +`), one of `! * \ ( ) ,`, or one of the four
   * folded letters.  The `%XX` branch adds nothing, since '%' is already in the range.
   */
  predicate IsUrlChar(c: char) {
    'a' <= c <= 'z' || 'A' <= c <= 'Z' || '0' <= c <= '9' || '$' <= c <= '_'
    || c == '!' || c == '*' || c == '\\' || c == '(' || c == ')' || c == ','
    || IsFoldedLetter(c)
  }

  /** Length of the longest run of URL characters starting at `i` (the greedy `+`). */
  function RunLength(s: string, i: nat): (n: nat)
    requires i <= |s|
    ensures i + n <= |s|
    ensures forall j :: i <= j < i + n ==> IsUrlChar(s[j])
    ensures i + n < |s| ==> !IsUrlChar(s[i + n])
    decreases |s| - i
  {
    if i < |s| && IsUrlChar(s[i]) then 1 + RunLength(s, i + 1) else 0
  }

  /** The lowercase literal `lit` occurs at `i` under `re.IGNORECASE`. */
  predicate MatchesAt(s: string, i: nat, lit: string) {
    i + |lit| <= |s| && forall j :: 0 <= j < |lit| ==> FoldsOnto(s[i + j], lit[j])
  }

  /** The two scans: the `http[s]?://` one, and the `www` one of either copy. */
  datatype Pattern = HttpPattern | WwwPattern(copy: Copy)

  /** Length of the fixed head of `pattern` at `i`, or 0 when the head does not match there. */
  function HeadLength(pattern: Pattern, s: string, i: nat): (n: nat)
    requires i <= |s|
    ensures i + n <= |s|
  {
    match pattern
    case HttpPattern =>
      if MatchesAt(s, i, "https://") then 8 else if MatchesAt(s, i, "http://") then 7 else 0
    case WwwPattern(CoreFilter) =>
      if MatchesAt(s, i, "www.") then 4 else 0
    case WwwPattern(DetectorCopy) =>
      if MatchesAt(s, i, "www") && i + 5 <= |s| && s[i + 3] == '\\' && s[i + 4] != '\n' then 5 else 0
  }

  /** End of the match of `pattern` that starts at `i`: its head, then a non-empty maximal run; 0 when there is none. */
  function MatchEnd(pattern: Pattern, s: string, i: nat): (j: nat)
    requires i <= |s|
    ensures j == 0 || i < j <= |s|
  {
    var h := HeadLength(pattern, s, i);
    if h > 0 && RunLength(s, i + h) > 0 then i + h + RunLength(s, i + h) else 0
  }

  /** `re.findall(pattern, s[i..], re.IGNORECASE)`: leftmost matches, each scan resuming after the last. */
  function FindAllFrom(pattern: Pattern, s: string, i: nat): seq<string>
    requires i <= |s|
    decreases |s| - i
  {
    if i == |s| then []
    else if MatchEnd(pattern, s, i) > 0 then
      [s[i..MatchEnd(pattern, s, i)]] + FindAllFrom(pattern, s, MatchEnd(pattern, s, i))
    else FindAllFrom(pattern, s, i + 1)
  }

  /** `extract_urls(text)`, as the set that `list(set(urls))` enumerates. */
  function ExtractUrls(copy: Copy, text: string): set<string> {
    var direct := FindAllFrom(HttpPattern, text, 0);
    var bare := FindAllFrom(WwwPattern(copy), text, 0);
    (set m | m in direct) + (set m | m in bare :: "http://" + m)
  }

  /** `order` lists every element of `s` exactly once: one iteration order of a Python set. */
  predicate Enumerates(order: seq<string>, s: set<string>) {
    (forall u :: u in order ==> u in s) && (forall u :: u in s ==> u in order)
    && forall i, j :: 0 <= i < j < |order| ==> order[i] != order[j]
  }

  // -------------------------------------------------------------- lemmas

  /** Every match found is a slice of the text on which `pattern` matches. */
  lemma {:induction false} FoundIsMatch(pattern: Pattern, s: string, i: nat, m: string) returns (a: nat)
    requires i <= |s| && m in FindAllFrom(pattern, s, i)
    ensures i <= a <= |s| && MatchEnd(pattern, s, a) > 0 && m == s[a..MatchEnd(pattern, s, a)]
    decreases |s| - i
  {
    if MatchEnd(pattern, s, i) > 0 && m == s[i..MatchEnd(pattern, s, i)] {
      a := i;
    } else if MatchEnd(pattern, s, i) > 0 {
      a := FoundIsMatch(pattern, s, MatchEnd(pattern, s, i), m);
    } else {
      a := FoundIsMatch(pattern, s, i + 1, m);
    }
  }

  /** Every extracted URL begins with `http://` or `https://` (in the case-insensitive sense of the scan) and has a non-empty body. */
  lemma ExtractedAreHttp(copy: Copy, text: string, u: string)
    requires u in ExtractUrls(copy, text)
    ensures MatchesAt(u, 0, "http://") || MatchesAt(u, 0, "https://")
    ensures |u| > 7
  {
    var direct := FindAllFrom(HttpPattern, text, 0);
    var bare := FindAllFrom(WwwPattern(copy), text, 0);
    if u in direct {
      var a := FoundIsMatch(HttpPattern, text, 0, u);
      var e := MatchEnd(HttpPattern, text, a);
      if MatchesAt(text, a, "https://") {
        MatchesAtSlice(text, a, e, "https://");
      } else {
        MatchesAtSlice(text, a, e, "http://");
      }
    } else {
      var m :| m in bare && u == "http://" + m;
      var a := FoundIsMatch(WwwPattern(copy), text, 0, m);
      HttpIsLowered();
      LiteralMatchesItself("http://", m);
    }
  }

  lemma HttpIsLowered()
    ensures IsLowered("http://")
  {
    var h := "http://";
    assert h[0] == 'h' && h[1] == 't' && h[2] == 't' && h[3] == 'p' && h[4] == ':' && h[5] == '/' && h[6] == '/';
  }

  /** The detector copy's `www` scan needs a backslash, so without one no bare host is extracted. */
  lemma {:induction false} DetectorWwwNeedsBackslash(s: string, i: nat)
    requires i <= |s| && '\\' !in s
    ensures FindAllFrom(WwwPattern(DetectorCopy), s, i) == []
    decreases |s| - i
  {
    if i < |s| {
      assert HeadLength(WwwPattern(DetectorCopy), s, i) == 0;
      DetectorWwwNeedsBackslash(s, i + 1);
    }
  }

  /** In the detector copy, text without a backslash yields only the `http(s)://` matches. */
  lemma DetectorExtractsOnlyHttp(text: string)
    requires '\\' !in text
    ensures ExtractUrls(DetectorCopy, text) == set m | m in FindAllFrom(HttpPattern, text, 0)
  {
    DetectorWwwNeedsBackslash(text, 0);
  }

  /** A bare `www.` host is extracted, with an `http://` prefix, by the core copy only. */
  lemma BareHostExtraction()
    ensures ExtractUrls(CoreFilter, "www.ab") == {"http://www.ab"}
    ensures ExtractUrls(DetectorCopy, "www.ab") == {}
  {
    var s := "www.ab";
    WwwAbScan(s);
    WwwAbChars(s);
    NoHttpWithoutH(s);
    OnlyBareHost(s);
    DetectorExtractsOnlyHttp(s);
  }

  lemma WwwAbChars(s: string)
    requires s == "www.ab"
    ensures forall k :: 0 <= k < |s| ==> LowerChar(s[k]) != 'h'
    ensures '\\' !in s
    ensures "http://" + s == "http://www.ab"
  {
  }

  /** A text whose only match is one bare host is extracted as that host with an `http://` prefix. */
  lemma OnlyBareHost(s: string)
    requires FindAllFrom(WwwPattern(CoreFilter), s, 0) == [s] && FindAllFrom(HttpPattern, s, 0) == []
    ensures ExtractUrls(CoreFilter, s) == {"http://" + s}
  {
    PrefixedSingleton(s);
    assert (set m: string | m in [] :: m) == {};
  }

  lemma WwwAbScan(s: string)
    requires s == "www.ab"
    ensures FindAllFrom(WwwPattern(CoreFilter), s, 0) == [s]
  {
    var p := WwwPattern(CoreFilter);
    assert RunLength(s, 4) == 2 by {
      assert IsUrlChar(s[4]) && IsUrlChar(s[5]);
    }
    assert MatchesAt(s, 0, "www.") by {
      assert s == "www." + "ab";
      LiteralMatchesItself("www.", "ab");
    }
    assert MatchEnd(p, s, 0) == 6;
    LeftmostMatchFound(p, s, 0, 0);
    assert s[0..6] == s;
  }

  /** Text without an 'h' in either case holds no `http://` match. */
  lemma NoHttpWithoutH(s: string)
    requires forall k :: 0 <= k < |s| ==> LowerChar(s[k]) != 'h'
    ensures FindAllFrom(HttpPattern, s, 0) == []
  {
    forall m | 0 <= m < |s|
      ensures MatchEnd(HttpPattern, s, m) == 0
    {
      if MatchesAt(s, m, "https://") {
        MatchesAtHead(s, m, "https://");
      }
      if MatchesAt(s, m, "http://") {
        MatchesAtHead(s, m, "http://");
      }
    }
    NoMatchNothingFound(HttpPattern, s, 0);
  }

  /** A position whose character is not a 'w' in either case starts no `www.` match. */
  lemma NoWwwAt(s: string, k: nat)
    requires k < |s| && LowerChar(s[k]) != 'w'
    ensures MatchEnd(WwwPattern(CoreFilter), s, k) == 0
  {
    if MatchesAt(s, k, "www.") {
      MatchesAtHead(s, k, "www.");
    }
  }

  /** A literal that matches at `i` matches its first character there. */
  lemma MatchesAtHead(s: string, i: nat, lit: string)
    requires lit != [] && MatchesAt(s, i, lit)
    ensures FoldsOnto(s[i], lit[0])
  {
    assert FoldsOnto(s[i + 0], lit[0]);
  }

  /** A match of a literal at `a` is also a match at the start of any slice from `a` that holds it. */
  lemma MatchesAtSlice(s: string, a: nat, e: nat, lit: string)
    requires a + |lit| <= e <= |s| && MatchesAt(s, a, lit)
    ensures MatchesAt(s[a..e], 0, lit)
  {
    forall j | 0 <= j < |lit|
      ensures FoldsOnto(s[a..e][j], lit[j])
    {
      assert s[a..e][j] == s[a + j];
    }
  }

  /** A match at the start of a suffix is a match at that suffix's offset. */
  lemma MatchesAtShift(s: string, i: nat, lit: string)
    requires i <= |s| && MatchesAt(s[i..], 0, lit)
    ensures MatchesAt(s, i, lit)
  {
    forall j | 0 <= j < |lit|
      ensures FoldsOnto(s[i + j], lit[j])
    {
      assert s[i..][0 + j] == s[i + j];
    }
  }

  /** A literal without capitals matches itself at the start of any text it begins. */
  lemma LiteralMatchesItself(lit: string, rest: string)
    requires IsLowered(lit)
    ensures MatchesAt(lit + rest, 0, lit)
  {
    forall j | 0 <= j < |lit|
      ensures FoldsOnto((lit + rest)[j], lit[j])
    {
      assert (lit + rest)[j] == lit[j];
    }
  }

  /** A text that is one `http://` URL with no 'w' in it is extracted as itself and nothing else. */
  lemma WholeHttpUrl(s: string)
    requires |s| > 7 && MatchesAt(s, 0, "http://") && !MatchesAt(s, 0, "https://")
    requires forall k :: 7 <= k < |s| ==> IsUrlChar(s[k])
    requires forall k :: 0 <= k < |s| ==> LowerChar(s[k]) != 'w'
    ensures ExtractUrls(CoreFilter, s) == {s}
  {
    RunToEnd(s, 7);
    assert MatchEnd(HttpPattern, s, 0) == |s|;
    LeftmostMatchFound(HttpPattern, s, 0, 0);
    assert s[0..|s|] == s;
    forall m | 0 <= m < |s|
      ensures MatchEnd(WwwPattern(CoreFilter), s, m) == 0
    {
      NoWwwAt(s, m);
    }
    NoMatchNothingFound(WwwPattern(CoreFilter), s, 0);
    assert (set m | m in [s]) == {s};
    assert (set m: string | m in [] :: "http://" + m) == {};
  }

  /**
   * A dotless i (U+0131) inside a host does not end the URL: under `re.IGNORECASE` it is in
   * `[a-zA-Z]`, so the whole URL is extracted.
   */
  lemma DotlessIExtracted()
    ensures ExtractUrls(CoreFilter, "http://p\U{0131}ypal.com") == {"http://p\U{0131}ypal.com"}
  {
    var rest := "p\U{0131}ypal.com";
    forall k | 0 <= k < |rest|
      ensures IsUrlChar(rest[k]) && LowerChar(rest[k]) != 'w'
    {
      RestChars(rest, k);
    }
    HttpPrefixed(rest);
    DotlessIUrl(rest);
  }

  lemma DotlessIUrl(rest: string)
    requires rest == "p\U{0131}ypal.com"
    ensures "http://" + rest == "http://p\U{0131}ypal.com"
  {
  }

  /** `http://` followed by a run of URL characters holding no 'w' is extracted whole. */
  lemma HttpPrefixed(rest: string)
    requires rest != [] && forall k :: 0 <= k < |rest| ==> IsUrlChar(rest[k]) && LowerChar(rest[k]) != 'w'
    ensures ExtractUrls(CoreFilter, "http://" + rest) == {"http://" + rest}
  {
    var s := "http://" + rest;
    HttpIsLowered();
    LiteralMatchesItself("http://", rest);
    assert s[4] == ':' && !FoldsOnto(s[4], "https://"[4]);
    forall k | 0 <= k < |s|
      ensures (k >= 7 ==> IsUrlChar(s[k])) && LowerChar(s[k]) != 'w'
    {
      if k >= 7 {
        assert s[k] == rest[k - 7];
      } else {
        assert s[k] == "http://"[k];
      }
    }
    WholeHttpUrl(s);
  }

  lemma RestChars(rest: string, k: nat)
    requires rest == "p\U{0131}ypal.com" && k < |rest|
    ensures IsUrlChar(rest[k]) && LowerChar(rest[k]) != 'w'
  {
  }

  /** A run of URL characters that reaches the end of the text is all of the rest. */
  lemma {:induction false} RunToEnd(s: string, i: nat)
    requires i <= |s| && forall k :: i <= k < |s| ==> IsUrlChar(s[k])
    ensures RunLength(s, i) == |s| - i
    decreases |s| - i
  {
    if i < |s| {
      RunToEnd(s, i + 1);
    }
  }

  lemma HttpsScan()
    ensures FindAllFrom(HttpPattern, "https://www.ab", 0) == ["https://www.ab"]
  {
    var s := "https://www.ab";
    assert s[0..8] == "https://" && Lower("https://") == "https://";
    assert HeadLength(HttpPattern, s, 0) == 8;
    assert RunLength(s, 8) == 6 by {
      assert forall k :: 8 <= k < 14 ==> IsUrlChar(s[k]);
    }
    assert s[0..14] == s;
  }

  lemma WwwScan()
    ensures FindAllFrom(WwwPattern(CoreFilter), "https://www.ab", 0) == ["www.ab"]
  {
    var s := "https://www.ab";
    WwwMatchAt8(s);
    HttpsHasNoW(s);
    forall m | 0 <= m < 8
      ensures MatchEnd(WwwPattern(CoreFilter), s, m) == 0
    {
      NoWwwAt(s, m);
    }
    SkipNoMatch(WwwPattern(CoreFilter), s, 0, 8);
  }

  lemma HttpsHasNoW(s: string)
    requires s == "https://www.ab"
    ensures forall m :: 0 <= m < 8 ==> LowerChar(s[m]) != 'w'
  {
  }

  lemma WwwMatchAt8(s: string)
    requires s == "https://www.ab"
    ensures FindAllFrom(WwwPattern(CoreFilter), s, 8) == ["www.ab"]
  {
    var p := WwwPattern(CoreFilter);
    assert MatchesAt(s, 8, "www.") by {
      assert s[8..] == "www." + "ab";
      LiteralMatchesItself("www.", "ab");
      MatchesAtShift(s, 8, "www.");
    }
    assert RunLength(s, 12) == 2 by {
      assert IsUrlChar(s[12]) && IsUrlChar(s[13]);
    }
    assert MatchEnd(p, s, 8) == 14 && s[8..14] == "www.ab";
  }

  /** Positions where no match of `pattern` starts are skipped by the scan. */
  lemma {:induction false} SkipNoMatch(pattern: Pattern, s: string, k: nat, j: nat)
    requires k <= j <= |s|
    requires forall m :: k <= m < j ==> MatchEnd(pattern, s, m) == 0
    ensures FindAllFrom(pattern, s, k) == FindAllFrom(pattern, s, j)
    decreases j - k
  {
    if k < j {
      SkipOne(pattern, s, k);
      SkipNoMatch(pattern, s, k + 1, j);
    }
  }

  lemma SkipOne(pattern: Pattern, s: string, k: nat)
    requires k < |s| && MatchEnd(pattern, s, k) == 0
    ensures FindAllFrom(pattern, s, k) == FindAllFrom(pattern, s, k + 1)
  {
  }

  /**
   * The scan is leftmost-first: when no match starts in `i..a` and one starts at `a`, the scan
   * from `i` reports exactly `s[a..MatchEnd(pattern, s, a)]` next and resumes where it ends.
   */
  lemma LeftmostMatchFound(pattern: Pattern, s: string, i: nat, a: nat)
    requires i <= a < |s|
    requires forall m :: i <= m < a ==> MatchEnd(pattern, s, m) == 0
    requires MatchEnd(pattern, s, a) > 0
    ensures FindAllFrom(pattern, s, i)
      == [s[a..MatchEnd(pattern, s, a)]] + FindAllFrom(pattern, s, MatchEnd(pattern, s, a))
  {
    SkipNoMatch(pattern, s, i, a);
  }

  /** Where no match starts at or after `i`, the scan finds nothing. */
  lemma NoMatchNothingFound(pattern: Pattern, s: string, i: nat)
    requires i <= |s|
    requires forall m :: i <= m < |s| ==> MatchEnd(pattern, s, m) == 0
    ensures FindAllFrom(pattern, s, i) == []
  {
    SkipNoMatch(pattern, s, i, |s|);
  }

  /** A `www.` host inside an `https://` URL is extracted a second time, re-prefixed with `http://`. */
  lemma WwwInsideHttpExtractedTwice(s: string)
    requires s == "https://www.ab"
    ensures ExtractUrls(CoreFilter, s) == {s, "http://" + s[8..]}
  {
    DirectSet(s);
    BareSet(s);
  }

  lemma DirectSet(s: string)
    requires s == "https://www.ab"
    ensures (set m | m in FindAllFrom(HttpPattern, s, 0)) == {s}
  {
    HttpsScan();
  }

  lemma BareSet(s: string)
    requires s == "https://www.ab"
    ensures (set m | m in FindAllFrom(WwwPattern(CoreFilter), s, 0) :: "http://" + m) == {"http://" + s[8..]}
  {
    WwwScan();
    HostAfterScheme(s);
    PrefixedSingleton("www.ab");
  }

  lemma HostAfterScheme(s: string)
    requires s == "https://www.ab"
    ensures s[8..] == "www.ab"
  {
  }

  lemma PrefixedSingleton(x: string)
    ensures (set m | m in [x] :: "http://" + m) == {"http://" + x}
  {
    var a := set m | m in [x] :: "http://" + m;
    assert "http://" + x in a;
    assert forall y :: y in a ==> y == "http://" + x;
  }
}
